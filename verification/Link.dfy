/** The session's read chain: handshake, then header and body in turn, each body drained through
    the unpacker into got_message. */
module Link {
  import opened Values
  import opened Wire
  import opened Session
  import F = Framing
  import Progress
  import Runs
  import SessionTheorems

  /** An outstanding asynchronous read.  The first two fill the one four-octet buffer. */
  datatype Read = HandshakeRead | HeaderRead | BodyRead(length: nat)

  /** How a read completes. */
  datatype Completion =
    | ReadError(aborted: bool)
    | GotOctets(octets: seq<F.Octet>)
    | GotBody(octets: seq<F.Octet>, tokens: seq<Token>, code: seq<seq<Behaviour>>)

  /** A read brings exactly as many octets as it asked for, or fails.  What the octets of a body are
      as tokens is the unpacker's matter. */
  predicate Fits(read: Read, r: Completion) {
    r.ReadError?
    || match read
       case BodyRead(length) => r.GotBody? && |r.octets| == length
       case _ => r.GotOctets? && |r.octets| == 4
  }

  datatype Connection = Connection(
    session: State,
    outstanding: seq<Read>,
    handshake: Promise<bool>,
    unpacker: seq<Token>,
    greeted: nat)              // handshake requests written

  const Fresh: Connection := Connection(Init, [], Unset, [], 0)

  function Start(c: Connection): Connection {
    c.(outstanding := c.outstanding + [HandshakeRead], greeted := c.greeted + 1)
  }

  function Ended(c: Connection): Connection {
    c.(session := c.session.(live := false))
  }

  /** m_handshake.set_value. */
  function SetHandshake(c: Connection, ok: bool): Connection {
    if c.handshake.Set? then Ended(c) else c.(handshake := Set(ok))
  }

  /** A reply is valid when it carries the magic octet and names MsgPack. */
  predicate ValidHandshake(b: seq<F.Octet>)
    requires |b| == 4
  {
    b[0] == 0x7F && b[1] % 0x10 == 0x02
  }

  function GotHandshakeReply(c: Connection, r: Completion): Connection
    requires Fits(HandshakeRead, r)
  {
    match r
    case ReadError(_) => SetHandshake(c, false)
    case GotOctets(b) =>
      if !ValidHandshake(b) then Ended(SetHandshake(c, false))
      else
        var d := SetHandshake(c, true);
        if d.session.live then d.(outstanding := d.outstanding + [HeaderRead]) else d
  }

  function HandleRxError(c: Connection, aborted: bool): Connection {
    if aborted then c else c.(session := Fault(c.session).state)
  }

  function GotMessageHeader(c: Connection, r: Completion): Connection
    requires Fits(HeaderRead, r)
  {
    match r
    case ReadError(aborted) => HandleRxError(c, aborted)
    case GotOctets(b) => c.(outstanding := c.outstanding + [BodyRead(F.LengthOf(b))])
  }

  function CodeAt(code: seq<seq<Behaviour>>, i: nat): seq<Behaviour> {
    if i < |code| then code[i] else []
  }

  /** What the loop hands each message to: got_message. */
  type Processor = (State, Value, seq<Behaviour>) -> Result

  datatype Drained = Drained(result: Result, rest: seq<Token>)

  /** The drain loop: one message after another until the buffer holds no whole one, or one throws. */
  function DrainInto(f: Processor, s: State, ts: seq<Token>, code: seq<seq<Behaviour>>, i: nat): Drained
    decreases |ts|
  {
    var p := Parse(ts);
    if p.More? then Drained(Good(s), ts)
    else
      var r := f(s, p.value, CodeAt(code, i));
      if r.outcome.Raised? then Drained(r, p.rest) else DrainInto(f, r.state, p.rest, code, i + 1)
  }

  function GotMessageBody(c: Connection, r: Completion): Connection
    requires !r.GotOctets?
  {
    match r
    case ReadError(aborted) => HandleRxError(c, aborted)
    case GotBody(_, ts, code) =>
      var d := DrainInto(Deliver, c.session, c.unpacker + ts, code, 0);
      var e := c.(session := d.result.state, unpacker := d.rest);
      if d.result.outcome.Ok? && !e.session.flags.stopped then e.(outstanding := e.outstanding + [HeaderRead]) else e
  }

  // ---------------------------------------------------------------- runs

  datatype Move =
    | Begin                               // start()
    | Complete(i: nat, r: Completion)     // outstanding read number i completes
    | Other(l: Label)                     // an API call, a closure or a reply

  predicate IsApi(l: Label) {
    l.Take? || l.Run? || l.SpendToken?
  }

  function Advance(c: Connection, m: Move): Connection {
    if !c.session.live then c
    else match m
      case Begin => Start(c)
      case Other(l) => if IsApi(l) then c.(session := Step(c.session, l)) else c
      case Complete(i, r) =>
        if i >= |c.outstanding| || !Fits(c.outstanding[i], r) then c
        else
          var d := c.(outstanding := c.outstanding[..i] + c.outstanding[i + 1..]);
          match c.outstanding[i]
          case HandshakeRead => GotHandshakeReply(d, r)
          case HeaderRead => GotMessageHeader(d, r)
          case BodyRead(_) => GotMessageBody(d, r)
  }

  function Play(moves: seq<Move>): Connection {
    if moves == [] then Fresh else Advance(Play(moves[..|moves| - 1]), moves[|moves| - 1])
  }

  // ---------------------------------------------------------------- the read chain

  /** What the chain keeps, once it has been started: one read at a time, and no message is read
      before the handshake has succeeded. */
  ghost predicate ChainOk(c: Connection) {
    && (c.greeted == 0 ==> c.outstanding == [] && c.handshake.Unset?)
    && (c.greeted == 1 ==>
          && |c.outstanding| <= 1
          && (c.handshake.Unset? && c.session.live ==> c.outstanding == [HandshakeRead])
          && (c.outstanding != [] && !c.outstanding[0].HandshakeRead? ==> c.handshake == Set(true))
          && (c.outstanding != [] && c.outstanding[0].HandshakeRead? ==> c.handshake.Unset?))
  }

  lemma CompleteChain(c: Connection, i: nat, r: Completion)
    requires ChainOk(c) && c.greeted <= 1 && c.session.live
    ensures ChainOk(Advance(c, Complete(i, r)))
  {
    if i < |c.outstanding| && Fits(c.outstanding[i], r) {
      assert i == 0 && c.outstanding[..i] + c.outstanding[i + 1..] == [];
    }
  }

  lemma AdvanceChain(c: Connection, m: Move)
    requires ChainOk(c) && Advance(c, m).greeted <= 1
    ensures ChainOk(Advance(c, m))
  {
    if c.session.live {
      match m {
        case Begin =>
        case Other(l) =>
          if IsApi(l) { Progress.ApiKeepsLive(c.session, l); }
        case Complete(i, r) => CompleteChain(c, i, r);
      }
    }
  }

  lemma GreetedGrows(c: Connection, m: Move)
    ensures c.greeted <= Advance(c, m).greeted
  {
  }

  /** In every run with one start(): never two reads outstanding, so the shared buffer is never
      overwritten while a read is filling it; and a header or body is only ever read after a valid
      handshake reply. */
  lemma {:induction false} OneReadAtATime(moves: seq<Move>)
    requires Play(moves).greeted <= 1
    ensures var c := Play(moves);
            && |c.outstanding| <= 1
            && (c.outstanding != [] && !c.outstanding[0].HandshakeRead? ==> c.handshake == Set(true))
            && ChainOk(c)
  {
    if moves != [] {
      var front, m := moves[..|moves| - 1], moves[|moves| - 1];
      GreetedGrows(Play(front), m);
      OneReadAtATime(front);
      AdvanceChain(Play(front), m);
    }
  }

  // ---------------------------------------------------------------- every connection run is a session run

  /** A drain is a run of messages received. */
  lemma {:induction false} DrainIsRun(s: State, run: seq<Label>, ts: seq<Token>, code: seq<seq<Behaviour>>, i: nat)
    returns (end: seq<Label>)
    requires s == Exec(run) && s.live
    ensures Exec(end) == DrainInto(Deliver, s, ts, code, i).result.state
    decreases |ts|
  {
    var p := Parse(ts);
    if p.More? {
      end := run;
    } else {
      var r := Deliver(s, p.value, CodeAt(code, i));
      end := run + [Receive(p.value, CodeAt(code, i))];
      ReceiveIsDeliver(run, p.value, CodeAt(code, i));
      if r.outcome.Ok? {
        end := DrainIsRun(r.state, end, p.rest, code, i + 1);
      }
    }
  }

  lemma ReceiveIsDeliver(run: seq<Label>, v: Value, o: seq<Behaviour>)
    requires Exec(run).live
    ensures var r := Deliver(Exec(run), v, o);
            Exec(run + [Receive(v, o)]) == r.state && (r.outcome.Ok? ==> r.state.live)
  {
    Runs.ExecSnoc(run, Receive(v, o));
    Progress.DeliverOnward(Exec(run), v, o);
  }

  /** Whatever the read chain does, the session goes through one of its own runs; so everything
      proved about session runs holds of connections. */
  lemma {:induction false} ConnectionRunIsSessionRun(moves: seq<Move>) returns (run: seq<Label>)
    ensures Play(moves).session == Exec(run) || Play(moves).session == Exec(run).(live := false)
  {
    run := [];
    if moves != [] {
      var front, m := moves[..|moves| - 1], moves[|moves| - 1];
      var c := Play(front);
      run := ConnectionRunIsSessionRun(front);
      if c.session.live {
        assert c.session == Exec(run);
        match m {
          case Begin =>
          case Other(l) =>
            if IsApi(l) { Runs.ExecSnoc(run, l); run := run + [l]; }
          case Complete(i, r) =>
            if i < |c.outstanding| && Fits(c.outstanding[i], r) {
              if r.ReadError? && !r.aborted && !c.outstanding[i].HandshakeRead? {
                Runs.ExecSnoc(run, ReadFails);
                run := run + [ReadFails];
              } else if r.GotBody? && c.outstanding[i].BodyRead? {
                run := DrainIsRun(c.session, run, c.unpacker + r.tokens, r.code, 0);
              }
            }
        }
      }
    }
  }

  // ---------------------------------------------------------------- how bodies are cut

  /** got_message over a list of whole messages, up to the first that throws. */
  function Process(f: Processor, s: State, vs: seq<Value>, code: seq<seq<Behaviour>>, i: nat): Result
    decreases |vs|
  {
    if vs == [] then Good(s)
    else
      var r := f(s, vs[0], CodeAt(code, i));
      if r.outcome.Raised? then r else Process(f, r.state, vs[1..], code, i + 1)
  }

  lemma {:induction false} DrainProcesses(f: Processor, s: State, ts: seq<Token>, code: seq<seq<Behaviour>>, i: nat)
    ensures var d, w := DrainInto(f, s, ts, code, i), F.Drain(ts);
            d.result == Process(f, s, w.messages, code, i) && (d.result.outcome.Ok? ==> d.rest == w.rest)
    decreases |ts|
  {
    var p := Parse(ts);
    if p.Got? {
      var r := f(s, p.value, CodeAt(code, i));
      var w := F.Drain(ts);
      assert w.messages[1..] == F.Drain(p.rest).messages;
      if r.outcome.Ok? {
        DrainProcesses(f, r.state, p.rest, code, i + 1);
      }
    }
  }

  /** Reading goes on: nothing threw, and the session is not stopped. */
  predicate GoesOn(r: Result) {
    r.outcome.Ok? && !r.state.flags.stopped
  }

  /** Bodies drained one after the other, until one throws or leaves the session stopped. */
  function Feed(f: Processor, s: State, buffered: seq<Token>, bodies: seq<seq<Token>>,
                code: seq<seq<Behaviour>>, i: nat): Result
    decreases |bodies|
  {
    if bodies == [] then Good(s)
    else
      var d := DrainInto(f, s, buffered + bodies[0], code, i);
      if GoesOn(d.result) then
        Feed(f, d.result.state, d.rest, bodies[1..], code, i + |F.Drain(buffered + bodies[0]).messages|)
      else d.result
  }

  /** How many bodies that is. */
  function BodiesRead(f: Processor, s: State, buffered: seq<Token>, bodies: seq<seq<Token>>,
                      code: seq<seq<Behaviour>>, i: nat): (n: nat)
    ensures n <= |bodies|
    decreases |bodies|
  {
    if bodies == [] then 0
    else
      var d := DrainInto(f, s, buffered + bodies[0], code, i);
      if GoesOn(d.result) then
        1 + BodiesRead(f, d.result.state, d.rest, bodies[1..], code, i + |F.Drain(buffered + bodies[0]).messages|)
      else 1
  }

  /** The messages of the first `k` bodies, processed. */
  function Processed(f: Processor, s: State, buffered: seq<Token>, bodies: seq<seq<Token>>,
                     code: seq<seq<Behaviour>>, i: nat, k: nat): Result
    requires k <= |bodies|
  {
    Process(f, s, F.Receive(buffered, bodies[..k]).messages, code, i)
  }

  /** One body, and then the rest. */
  lemma ProcessedOn(f: Processor, s: State, buffered: seq<Token>, bodies: seq<seq<Token>>,
                    code: seq<seq<Behaviour>>, i: nat, k: nat)
    requires 1 <= k <= |bodies|
    ensures var d := DrainInto(f, s, buffered + bodies[0], code, i);
            Processed(f, s, buffered, bodies, code, i, k)
            == if d.result.outcome.Raised? then d.result
               else Processed(f, d.result.state, d.rest, bodies[1..], code,
                              i + |F.Drain(buffered + bodies[0]).messages|, k - 1)
  {
    var w := F.Drain(buffered + bodies[0]);
    DrainProcesses(f, s, buffered + bodies[0], code, i);
    assert bodies[..k][1..] == bodies[1..][..k - 1];
    ProcessAppend(f, s, w.messages, F.Receive(w.rest, bodies[..k][1..]).messages, code, i);
  }

  /** Feeding bodies is processing the messages of the bodies read, and reading ends at the first body
      after which something has been thrown or the session is stopped, and at no other. */
  lemma {:induction false} FeedProcesses(f: Processor, s: State, buffered: seq<Token>, bodies: seq<seq<Token>>,
                                         code: seq<seq<Behaviour>>, i: nat)
    ensures var n := BodiesRead(f, s, buffered, bodies, code, i);
            && Feed(f, s, buffered, bodies, code, i) == Processed(f, s, buffered, bodies, code, i, n)
            && (forall k :: 1 <= k < n ==> GoesOn(Processed(f, s, buffered, bodies, code, i, k)))
            && (n < |bodies| ==> 0 < n && !GoesOn(Processed(f, s, buffered, bodies, code, i, n)))
    decreases |bodies|
  {
    if bodies != [] {
      var d := DrainInto(f, s, buffered + bodies[0], code, i);
      var j := i + |F.Drain(buffered + bodies[0]).messages|;
      var n := BodiesRead(f, s, buffered, bodies, code, i);
      ProcessedOn(f, s, buffered, bodies, code, i, n);
      NoneIsNothing(f, d.result.state, d.rest, bodies[1..], code, j);
      if GoesOn(d.result) {
        FeedProcesses(f, d.result.state, d.rest, bodies[1..], code, j);
        forall k | 1 <= k < n ensures GoesOn(Processed(f, s, buffered, bodies, code, i, k)) {
          ProcessedOn(f, s, buffered, bodies, code, i, k);
          assert k > 1 ==> GoesOn(Processed(f, d.result.state, d.rest, bodies[1..], code, j, k - 1));
        }
      }
    }
  }

  lemma NoneIsNothing(f: Processor, s: State, buffered: seq<Token>, bodies: seq<seq<Token>>,
                      code: seq<seq<Behaviour>>, i: nat)
    ensures Processed(f, s, buffered, bodies, code, i, 0) == Good(s)
  {
    assert bodies[..0] == [];
  }

  lemma {:induction false} ProcessAppend(f: Processor, s: State, a: seq<Value>, b: seq<Value>,
                                         code: seq<seq<Behaviour>>, i: nat)
    ensures var r := Process(f, s, a, code, i);
            Process(f, s, a + b, code, i) == if r.outcome.Raised? then r else Process(f, r.state, b, code, i + |a|)
    decreases |a|
  {
    if a == [] {
      assert a + b == b;
    } else {
      var r := f(s, a[0], CodeAt(code, i));
      assert (a + b)[1..] == a[1..] + b;
      if r.outcome.Ok? {
        ProcessAppend(f, r.state, a[1..], b, code, i + 1);
      }
    }
  }

  /** Every message processed makes the trace longer. */
  lemma {:induction false} ProcessLengthens(s: State, vs: seq<Value>, code: seq<seq<Behaviour>>, i: nat)
    ensures |Process(Deliver, s, vs, code, i).state.output.trace| >= |s.output.trace| + if vs == [] then 0 else 1
    decreases |vs|
  {
    if vs != [] {
      var r := Deliver(s, vs[0], CodeAt(code, i));
      Progress.DeliverOnward(s, vs[0], CodeAt(code, i));
      assert s.output.trace + [In(vs[0])] <= r.state.output.trace;
      if r.outcome.Ok? { ProcessLengthens(r.state, vs[1..], code, i + 1); }
    }
  }

  /** Processing fewer of the messages comes to the same if and only if one of the fewer throws. */
  lemma FewerMessages(s: State, read: seq<Value>, messages: seq<Value>, code: seq<seq<Behaviour>>)
    requires read <= messages
    ensures var r, w := Process(Deliver, s, read, code, 0), Process(Deliver, s, messages, code, 0);
            && (r == w <==> read == messages || r.outcome.Raised?)
            && (r.state == w.state <==> r == w)
  {
    var r, later := Process(Deliver, s, read, code, 0), messages[|read|..];
    assert messages == read + later;
    ProcessAppend(Deliver, s, read, later, code, 0);
    if r.outcome.Ok? && later != [] { ProcessLengthens(r.state, later, code, |read|); }
    if later == [] { assert messages == read; }
  }

  /** The messages in the bodies that are read. */
  function MessagesRead(s: State, bodies: seq<seq<Token>>, code: seq<seq<Behaviour>>): seq<Value> {
    F.Receive([], bodies[..BodiesRead(Deliver, s, [], bodies, code, 0)]).messages
  }

  lemma ReadIsPrefix(s: State, messages: seq<Value>, bodies: seq<seq<Token>>, code: seq<seq<Behaviour>>)
    requires F.Concat(bodies) == FlattenAll(messages)
    ensures MessagesRead(s, bodies, code) <= messages
  {
    var n := BodiesRead(Deliver, s, [], bodies, code, 0);
    F.CutMessages(messages, bodies);
    F.ReceiveAppend([], bodies[..n], bodies[n..]);
    assert bodies[..n] + bodies[n..] == bodies;
  }

  /** Exactly when it does not matter that the packed messages came cut into these bodies, not one by
      one: when the bodies up to the first that leaves the session stopped hold all of them, or one
      of those they hold throws. */
  lemma CuttingDoesNotMatter(s: State, messages: seq<Value>, bodies: seq<seq<Token>>, code: seq<seq<Behaviour>>)
    requires F.Concat(bodies) == FlattenAll(messages)
    ensures var r, read := Feed(Deliver, s, [], bodies, code, 0), MessagesRead(s, bodies, code);
            && r == Process(Deliver, s, read, code, 0) && read <= messages
            && (r == Process(Deliver, s, messages, code, 0) <==>
                  read == messages || Process(Deliver, s, read, code, 0).outcome.Raised?)
  {
    FeedProcesses(Deliver, s, [], bodies, code, 0);
    ReadIsPrefix(s, messages, bodies, code);
    FewerMessages(s, MessagesRead(s, bodies, code), messages, code);
  }

  /** So two cuttings of the same messages come to the same if and only if the same messages are read
      under both, or one is thrown out under both. */
  lemma CuttingsAgreeIff(s: State, messages: seq<Value>, bodies: seq<seq<Token>>, others: seq<seq<Token>>,
                         code: seq<seq<Behaviour>>)
    requires F.Concat(bodies) == F.Concat(others) == FlattenAll(messages)
    ensures var a, b := MessagesRead(s, bodies, code), MessagesRead(s, others, code);
            Feed(Deliver, s, [], bodies, code, 0) == Feed(Deliver, s, [], others, code, 0) <==>
              a == b
              || (Process(Deliver, s, a, code, 0).outcome.Raised? && Process(Deliver, s, b, code, 0).outcome.Raised?)
  {
    var a, b := MessagesRead(s, bodies, code), MessagesRead(s, others, code);
    CuttingDoesNotMatter(s, messages, bodies, code);
    CuttingDoesNotMatter(s, messages, others, code);
    if |a| <= |b| {
      assert a == messages[..|a|] && b == messages[..|b|];
      FewerMessages(s, a, b, code);
    } else {
      assert a == messages[..|a|] && b == messages[..|b|];
      FewerMessages(s, b, a, code);
    }
  }

  // ---------------------------------------------------------------- the chain does the feeding

  function Later(code: seq<seq<Behaviour>>, i: nat): seq<seq<Behaviour>> {
    if i <= |code| then code[i..] else []
  }

  lemma {:induction false} LaterCode(f: Processor, s: State, ts: seq<Token>, code: seq<seq<Behaviour>>, i: nat, k: nat)
    ensures DrainInto(f, s, ts, Later(code, i), k) == DrainInto(f, s, ts, code, i + k)
    decreases |ts|
  {
    var p := Parse(ts);
    if p.Got? {
      assert CodeAt(Later(code, i), k) == CodeAt(code, i + k);
      var r := f(s, p.value, CodeAt(code, i + k));
      if r.outcome.Ok? { LaterCode(f, r.state, p.rest, code, i, k + 1); }
    }
  }

  lemma {:induction false} DrainKeepsLive(s: State, ts: seq<Token>, code: seq<seq<Behaviour>>, i: nat)
    requires s.live
    ensures var r := DrainInto(Deliver, s, ts, code, i).result;
            r.state.live <==> r.outcome.Ok?
    decreases |ts|
  {
    var p := Parse(ts);
    if p.Got? {
      Progress.DeliverOnward(s, p.value, CodeAt(code, i));
      var r := Deliver(s, p.value, CodeAt(code, i));
      if r.outcome.Ok? { DrainKeepsLive(r.state, p.rest, code, i + 1); }
    }
  }

  /** What the MessagePack library makes of the octets of a body. */
  type Unpack = seq<F.Octet> -> seq<Token>

  function Unpacked(unpack: Unpack, payloads: seq<seq<F.Octet>>): seq<seq<Token>> {
    if payloads == [] then [] else [unpack(payloads[0])] + Unpacked(unpack, payloads[1..])
  }

  /** Where the reading of a stream stands: the connection, and how many messages it has drained. */
  datatype Reading = Reading(c: Connection, n: nat)

  /** What becomes of it when the octets of a header and of a body have come. */
  type Taker = (Reading, seq<F.Octet>, seq<F.Octet>) -> Reading

  /** The octets of a stream are taken as far as whole frames have come. */
  function ReadStream(take: Taker, r: Reading, octets: seq<F.Octet>): Reading
    decreases |octets|
  {
    if |octets| < 4 || |octets| < 4 + F.LengthOf(octets[..4]) then r
    else
      var end := 4 + F.LengthOf(octets[..4]);
      ReadStream(take, take(r, octets[..4], octets[4..end]), octets[end..])
  }

  /** One frame after another. */
  function ReadFrames(take: Taker, r: Reading, payloads: seq<seq<F.Octet>>): Reading
    decreases |payloads|
  {
    if payloads == [] then r
    else ReadFrames(take, take(r, F.HeaderOf(|payloads[0]|), payloads[0]), payloads[1..])
  }

  /** A stream of frames is read frame by frame: the length in each header finds the next. */
  lemma {:induction false} StreamIsFrames(take: Taker, r: Reading, payloads: seq<seq<F.Octet>>)
    requires forall k :: 0 <= k < |payloads| ==> |payloads[k]| < F.HEADER_RANGE
    ensures ReadStream(take, r, F.EncodeFrames(payloads)) == ReadFrames(take, r, payloads)
    decreases |payloads|
  {
    if payloads != [] {
      var p := payloads[0];
      ReadOne(take, r, p, F.EncodeFrames(payloads[1..]));
      StreamIsFrames(take, take(r, F.HeaderOf(|p|), p), payloads[1..]);
    }
  }

  lemma ReadOne(take: Taker, r: Reading, p: seq<F.Octet>, more: seq<F.Octet>)
    requires |p| < F.HEADER_RANGE
    ensures ReadStream(take, r, F.HeaderOf(|p|) + p + more) == ReadStream(take, take(r, F.HeaderOf(|p|), p), more)
  {
    var octets := F.HeaderOf(|p|) + p + more;
    F.OneFrame(p, more);
    F.LengthOfHeader(|p|);
    assert octets[..4] == F.HeaderOf(|p|);
    assert p[..|p|] == p;
    assert p[|p|..] + more == more;
  }

  /** The two reads of one frame complete: four octets, then a body. */
  function TakeFrame(unpack: Unpack, code: seq<seq<Behaviour>>, r: Reading, header: seq<F.Octet>,
                     body: seq<F.Octet>): Reading
  {
    var d := Advance(r.c, Complete(0, GotOctets(header)));
    Reading(Advance(d, Complete(0, GotBody(body, unpack(body), Later(code, r.n)))),
            r.n + |F.Drain(r.c.unpacker + unpack(body)).messages|)
  }

  function Taking(unpack: Unpack, code: seq<seq<Behaviour>>): Taker {
    (r, header, body) => TakeFrame(unpack, code, r, header, body)
  }

  lemma {:induction false} NothingRead(unpack: Unpack, code: seq<seq<Behaviour>>, r: Reading,
                                       payloads: seq<seq<F.Octet>>)
    requires !r.c.session.live || r.c.outstanding == []
    ensures ReadFrames(Taking(unpack, code), r, payloads).c == r.c
    decreases |payloads|
  {
    if payloads != [] {
      var e := TakeFrame(unpack, code, r, F.HeaderOf(|payloads[0]|), payloads[0]);
      NothingRead(unpack, code, Reading(r.c, e.n), payloads[1..]);
    }
  }

  /** One frame, from a connection that waits for a header. */
  lemma OneFrame(unpack: Unpack, code: seq<seq<Behaviour>>, r: Reading, p: seq<F.Octet>)
    requires r.c.session.live && r.c.outstanding == [HeaderRead] && |p| < F.HEADER_RANGE
    ensures Took(Deliver, r, TakeFrame(unpack, code, r, F.HeaderOf(|p|), p), unpack(p), code)
  {
    F.LengthOfHeader(|p|);
    LengthDecides(r.c, F.HeaderOf(|p|), p, unpack(p), Later(code, r.n));
    BodyTaken(r.c.(outstanding := [BodyRead(|p|)]), p, unpack(p), Later(code, r.n));
    TookLater(Deliver, r, TakeFrame(unpack, code, r, F.HeaderOf(|p|), p), unpack(p), code);
  }

  lemma TookLater(f: Processor, r: Reading, e: Reading, body: seq<Token>, code: seq<seq<Behaviour>>)
    requires var d := DrainInto(f, r.c.session, r.c.unpacker + body, Later(code, r.n), 0);
             && e.c.session == d.result.state && e.c.unpacker == d.rest
             && e.n == r.n + |F.Drain(r.c.unpacker + body).messages|
             && e.c.outstanding == if d.result.outcome.Ok? && !e.c.session.flags.stopped then [HeaderRead] else []
    ensures Took(f, r, e, body, code)
  {
    LaterCode(f, r.c.session, r.c.unpacker + body, code, r.n, 0);
  }

  lemma BodyTaken(d: Connection, p: seq<F.Octet>, ts: seq<Token>, code: seq<seq<Behaviour>>)
    requires d.session.live && d.outstanding == [BodyRead(|p|)]
    ensures var e := Advance(d, Complete(0, GotBody(p, ts, code)));
            var w := DrainInto(Deliver, d.session, d.unpacker + ts, code, 0);
            && e.session == w.result.state && e.unpacker == w.rest
            && e.outstanding == if w.result.outcome.Ok? && !e.session.flags.stopped then [HeaderRead] else []
  {
    assert d.outstanding[..0] + d.outstanding[1..] == [];
  }

  /** The connection has drained a body, and waits for the next header unless something ended that. */
  ghost predicate Took(f: Processor, r: Reading, e: Reading, body: seq<Token>, code: seq<seq<Behaviour>>) {
    var d := DrainInto(f, r.c.session, r.c.unpacker + body, code, r.n);
    && e.c.session == d.result.state && e.c.unpacker == d.rest
    && e.n == r.n + |F.Drain(r.c.unpacker + body).messages|
    && e.c.outstanding == if d.result.outcome.Ok? && !e.c.session.flags.stopped then [HeaderRead] else []
  }

  /** A body of another length than its header names is never taken. */
  lemma LengthDecides(c: Connection, header: seq<F.Octet>, body: seq<F.Octet>, ts: seq<Token>,
                      code: seq<seq<Behaviour>>)
    requires c.session.live && c.outstanding == [HeaderRead] && |header| == 4
    ensures var d := Advance(c, Complete(0, GotOctets(header)));
            && d == c.(outstanding := [BodyRead(F.LengthOf(header))])
            && (|body| != F.LengthOf(header) ==> Advance(d, Complete(0, GotBody(body, ts, code))) == d)
  {
    assert c.outstanding[..0] + c.outstanding[1..] == [];
  }

  /** A connection waiting for a header takes the frames of a stream exactly as `Feed` takes bodies. */
  lemma {:induction false} ChainFeeds(unpack: Unpack, code: seq<seq<Behaviour>>, r: Reading,
                                      payloads: seq<seq<F.Octet>>)
    requires r.c.session.live && r.c.outstanding == [HeaderRead]
    requires forall k :: 0 <= k < |payloads| ==> |payloads[k]| < F.HEADER_RANGE
    ensures ReadFrames(Taking(unpack, code), r, payloads).c.session
            == Feed(Deliver, r.c.session, r.c.unpacker, Unpacked(unpack, payloads), code, r.n).state
    decreases |payloads|, 1
  {
    if payloads != [] {
      var p, more := payloads[0], payloads[1..];
      var e := TakeFrame(unpack, code, r, F.HeaderOf(|p|), p);
      OneFrame(unpack, code, r, p);
      DrainKeepsLive(r.c.session, r.c.unpacker + unpack(p), code, r.n);
      if e.c.outstanding == [] {
        NothingRead(unpack, code, e, more);
      } else {
        ChainFeeds(unpack, code, e, more);
      }
      UnpackedFirst(unpack, payloads);
      FeedsOn(Deliver, r, e, unpack(p), Unpacked(unpack, payloads), code,
              ReadFrames(Taking(unpack, code), e, more).c.session);
    }
  }

  /** `Feed` goes on after a body as the chain does. */
  lemma FeedsOn(f: Processor, r: Reading, e: Reading, body: seq<Token>, bodies: seq<seq<Token>>,
                code: seq<seq<Behaviour>>, end: State)
    requires bodies != [] && bodies[0] == body && Took(f, r, e, body, code)
    requires end == if e.c.outstanding == [] then e.c.session
                    else Feed(f, e.c.session, e.c.unpacker, bodies[1..], code, e.n).state
    ensures end == Feed(f, r.c.session, r.c.unpacker, bodies, code, r.n).state
  {
  }

  lemma UnpackedFirst(unpack: Unpack, payloads: seq<seq<F.Octet>>)
    requires payloads != []
    ensures var u := Unpacked(unpack, payloads);
            u != [] && u[0] == unpack(payloads[0]) && u[1..] == Unpacked(unpack, payloads[1..])
  {
  }

  /** A stream of frames whose bodies, put together, are packed messages, cut anywhere: the messages of
      the bodies read are processed in order, and that is processing all of them exactly when those are
      all or one of those throws. */
  lemma StreamCarriesMessages(c: Connection, unpack: Unpack, payloads: seq<seq<F.Octet>>, messages: seq<Value>,
                              code: seq<seq<Behaviour>>)
    requires c.session.live && c.outstanding == [HeaderRead] && c.unpacker == []
    requires forall k :: 0 <= k < |payloads| ==> |payloads[k]| < F.HEADER_RANGE
    requires F.Concat(Unpacked(unpack, payloads)) == FlattenAll(messages)
    ensures var s := ReadStream(Taking(unpack, code), Reading(c, 0), F.EncodeFrames(payloads)).c.session;
            var read := MessagesRead(c.session, Unpacked(unpack, payloads), code);
            && s == Process(Deliver, c.session, read, code, 0).state && read <= messages
            && (s == Process(Deliver, c.session, messages, code, 0).state <==>
                  read == messages || Process(Deliver, c.session, read, code, 0).outcome.Raised?)
  {
    var read := MessagesRead(c.session, Unpacked(unpack, payloads), code);
    StreamIsFrames(Taking(unpack, code), Reading(c, 0), payloads);
    ChainFeeds(unpack, code, Reading(c, 0), payloads);
    CuttingDoesNotMatter(c.session, messages, Unpacked(unpack, payloads), code);
    FewerMessages(c.session, read, messages, code);
  }

  // ---------------------------------------------------------------- from one end to the other

  type Pack = seq<Token> -> seq<F.Octet>

  /** The payloads of the frames that send() writes for a list of messages. */
  function Payloads(pack: Pack, sent: seq<WireMsg>): seq<seq<F.Octet>> {
    if sent == [] then [] else [pack(Flatten(Encode(sent[0])))] + Payloads(pack, sent[1..])
  }

  function Encoded(sent: seq<WireMsg>): seq<Value> {
    if sent == [] then [] else [Encode(sent[0])] + Encoded(sent[1..])
  }

  /** The library reads back this message as it wrote it, and its size fits the length field. */
  predicate Carried(pack: Pack, unpack: Unpack, m: WireMsg) {
    && unpack(pack(Flatten(Encode(m)))) == Flatten(Encode(m))
    && |pack(Flatten(Encode(m)))| < F.HEADER_RANGE
  }

  /** Each message in a body of its own. */
  function Singles(vs: seq<Value>): seq<seq<Token>> {
    if vs == [] then [] else [Flatten(vs[0])] + Singles(vs[1..])
  }

  /** How many messages are processed, one at a time, up to the first that throws or leaves the session
      stopped. */
  function Heard(f: Processor, s: State, vs: seq<Value>, code: seq<seq<Behaviour>>, i: nat): (n: nat)
    ensures n <= |vs|
    decreases |vs|
  {
    if vs == [] then 0
    else
      var r := f(s, vs[0], CodeAt(code, i));
      if GoesOn(r) then 1 + Heard(f, r.state, vs[1..], code, i + 1) else 1
  }

  lemma {:induction false} FeedSingles(f: Processor, s: State, vs: seq<Value>, code: seq<seq<Behaviour>>, i: nat)
    ensures Feed(f, s, [], Singles(vs), code, i) == Process(f, s, vs[..Heard(f, s, vs, code, i)], code, i)
    decreases |vs|
  {
    if vs != [] {
      var n, r := Heard(f, s, vs, code, i), f(s, vs[0], CodeAt(code, i));
      DrainOne(f, s, vs[0], code, i);
      assert Singles(vs)[1..] == Singles(vs[1..]);
      assert vs[..n][1..] == vs[1..][..n - 1];
      if GoesOn(r) {
        FeedSingles(f, r.state, vs[1..], code, i + 1);
      } else {
        assert vs[1..][..0] == [];
      }
    }
  }

  lemma DrainOne(f: Processor, s: State, v: Value, code: seq<seq<Behaviour>>, i: nat)
    ensures DrainInto(f, s, [] + Flatten(v), code, i) == Drained(f(s, v, CodeAt(code, i)), [])
    ensures |F.Drain([] + Flatten(v)).messages| == 1
  {
    ParseFlatten(v, []);
    assert [] + Flatten(v) == Flatten(v) + [];
  }

  lemma {:induction false} PayloadsUnpack(pack: Pack, unpack: Unpack, sent: seq<WireMsg>)
    requires forall j :: 0 <= j < |sent| ==> Carried(pack, unpack, sent[j])
    ensures Unpacked(unpack, Payloads(pack, sent)) == Singles(Encoded(sent))
    ensures var ps := Payloads(pack, sent); forall k :: 0 <= k < |ps| ==> |ps[k]| < F.HEADER_RANGE
  {
    if sent != [] {
      var rest := sent[1..];
      assert Carried(pack, unpack, sent[0]);
      assert forall j :: 0 <= j < |rest| ==> rest[j] == sent[j + 1];
      PayloadsUnpack(pack, unpack, rest);
      var ps := Payloads(pack, sent);
      assert ps[1..] == Payloads(pack, rest);
      UnpackedFirst(unpack, ps);
      assert Encoded(sent)[1..] == Encoded(rest);
      assert forall k :: 1 <= k < |ps| ==> ps[k] == ps[1..][k - 1];
    }
  }

  lemma {:induction false} EncodedDecodes(sent: seq<WireMsg>)
    ensures |Encoded(sent)| == |sent|
    ensures forall j :: 0 <= j < |sent| ==> Decode(Encoded(sent)[j]) == Some(sent[j])
  {
    if sent != [] {
      DecodeItems(sent[0]);
      EncodedDecodes(sent[1..]);
    }
  }

  /** What one side sends is what the other side's got_message gets: the octets written for a list of
      messages, framed with their lengths, are read and unpacked into those messages, each of which
      says what was meant, and processed in order up to the first that throws or leaves the session
      stopped; that is processing all of them exactly when it is the last or it throws. */
  lemma WireToWire(c: Connection, pack: Pack, unpack: Unpack, sent: seq<WireMsg>, code: seq<seq<Behaviour>>)
    requires c.session.live && c.outstanding == [HeaderRead] && c.unpacker == []
    requires forall j :: 0 <= j < |sent| ==> Carried(pack, unpack, sent[j])
    ensures var s := ReadStream(Taking(unpack, code), Reading(c, 0), F.EncodeFrames(Payloads(pack, sent))).c.session;
            var vs, n := Encoded(sent), Heard(Deliver, c.session, Encoded(sent), code, 0);
            && s == Process(Deliver, c.session, vs[..n], code, 0).state
            && (s == Process(Deliver, c.session, vs, code, 0).state <==>
                  n == |vs| || Process(Deliver, c.session, vs[..n], code, 0).outcome.Raised?)
    ensures |Encoded(sent)| == |sent|
    ensures forall j :: 0 <= j < |sent| ==> Decode(Encoded(sent)[j]) == Some(sent[j])
  {
    var payloads, vs := Payloads(pack, sent), Encoded(sent);
    PayloadsUnpack(pack, unpack, sent);
    StreamIsFrames(Taking(unpack, code), Reading(c, 0), payloads);
    ChainFeeds(unpack, code, Reading(c, 0), payloads);
    FeedSingles(Deliver, c.session, vs, code, 0);
    FewerMessages(c.session, vs[..Heard(Deliver, c.session, vs, code, 0)], vs, code);
    EncodedDecodes(sent);
  }

  // ---------------------------------------------------------------- the handshake

  /** In every run with one start(), when the handshake read completes the message loop begins, with one
      header read, if and only if the reply carries the magic octet and names MsgPack; exactly then the
      future of start() says yes. */
  lemma {:induction false} HandshakeStartsLoop(moves: seq<Move>, r: Completion)
    requires Play(moves).greeted == 1 && Play(moves).session.live && Play(moves).outstanding == [HandshakeRead]
    requires Fits(HandshakeRead, r)
    ensures var c, d := Play(moves), Advance(Play(moves), Complete(0, r));
            var good := r.GotOctets? && r.octets[0] == 127 && r.octets[1] % 16 == 2;
            && d.outstanding == (if good then [HeaderRead] else [])
            && d.handshake == Set(good)
            && d.session == if r.ReadError? || good then c.session else c.session.(live := false)
  {
    var c := Play(moves);
    OneReadAtATime(moves);
    assert c.outstanding[..0] + c.outstanding[1..] == [];
  }

  // ---------------------------------------------------------------- receive errors

  /** What a header or body read that was aborted or failed leaves behind. */
  predicate ReadEnded(c: Connection, i: nat, aborted: bool, d: Connection)
    requires i < |c.outstanding|
  {
    && d == c.(session := d.session, outstanding := c.outstanding[..i] + c.outstanding[i + 1..])
    && (if aborted then d.session == c.session else SessionTheorems.ReadFailed(c.session, d.session))
  }

  /** A header or body read that was aborted leaves the session as it is.  One that fails otherwise does
      what a read error does; the application is told exactly when the session is joined and nobody has
      tried to leave or stop it. */
  lemma {:induction false} ReadErrorMeans(moves: seq<Move>, i: nat, aborted: bool)
    requires Play(moves).session.live && i < |Play(moves).outstanding|
    requires !Play(moves).outstanding[i].HandshakeRead?
    ensures ReadEnded(Play(moves), i, aborted, Advance(Play(moves), Complete(i, ReadError(aborted))))
  {
    var run := ConnectionRunIsSessionRun(moves);
    Runs.ExecLife(run);
    if !aborted { SessionTheorems.FaultMeans(Play(moves).session); }
  }

  /** At most one receive error is signalled in any run. */
  lemma {:induction false} AtMostOneSignal(moves: seq<Move>)
    ensures Play(moves).session.signals <= 1
  {
    var run := ConnectionRunIsSessionRun(moves);
    SessionTheorems.SignalsOnce(run);
  }
}
