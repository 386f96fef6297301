/** RawSocket framing: every serialized message travels behind a four-octet big-endian length.
    Also the receive side, which feeds frame bodies to the unpacker and drains whole messages. */
module Framing {
  import opened Values
  import Sequences

  type Octet = x: int | 0 <= x < 256 witness 0

  /** A header holds uint32_t, so a longer size is truncated before it is written. */
  const HEADER_RANGE: nat := 0x1_0000_0000

  function HeaderOf(size: nat): (h: seq<Octet>)
    ensures |h| == 4
  {
    var len := size % HEADER_RANGE;
    [len / 0x100_0000, len / 0x1_0000 % 0x100, len / 0x100 % 0x100, len % 0x100]
  }

  /** ntohl over the four buffered octets. */
  function LengthOf(h: seq<Octet>): nat
    requires |h| == 4
  {
    h[0] as int * 0x100_0000 + h[1] as int * 0x1_0000 + h[2] as int * 0x100 + h[3] as int
  }

  lemma LengthOfHeader(size: nat)
    ensures LengthOf(HeaderOf(size)) == size % HEADER_RANGE
    ensures HeaderOf(size)[0] == 0 <==> size % HEADER_RANGE < 0x100_0000
  {
    var len := size % HEADER_RANGE;
    Digit(len, 0x100);
    Digit(len / 0x100, 0x100);
    Digit(len / 0x1_0000, 0x100);
    assert len / 0x100 / 0x100 == len / 0x1_0000 && len / 0x1_0000 / 0x100 == len / 0x100_0000;
  }

  /** Octets read in network order, the first the most significant. */
  function BigEndian(h: seq<Octet>): nat {
    if h == [] then 0 else BigEndian(h[..|h| - 1]) * 0x100 + h[|h| - 1] as int
  }

  /** The header is the size in network order, and its reader reads network order, for any four octets. */
  lemma NetworkOrder(size: nat, h: seq<Octet>)
    requires |h| == 4
    ensures BigEndian(HeaderOf(size)) == size % HEADER_RANGE
    ensures LengthOf(h) == BigEndian(h)
  {
    LengthOfHeader(size);
    FourOctets(HeaderOf(size));
    FourOctets(h);
  }

  lemma FourOctets(h: seq<Octet>)
    requires |h| == 4
    ensures BigEndian(h) == LengthOf(h)
  {
    assert h[..3][..2] == h[..2] && h[..2][..1] == h[..1] && h[..1][..0] == [];
    assert BigEndian(h[..1]) == h[0] as int;
    assert BigEndian(h[..2]) == BigEndian(h[..1]) * 0x100 + h[1] as int;
    assert BigEndian(h[..3]) == BigEndian(h[..2]) * 0x100 + h[2] as int;
  }

  lemma Digit(n: nat, base: nat)
    requires base > 0
    ensures n == n / base * base + n % base
  {
  }

  /** The octets that a series of sends puts on the stream. */
  function EncodeFrames(ps: seq<seq<Octet>>): seq<Octet> {
    if ps == [] then [] else HeaderOf(|ps[0]|) + ps[0] + EncodeFrames(ps[1..])
  }

  /** What the header read and the exact-length body read take off a stream, and what is left when
      a read cannot complete. */
  datatype Frames = Frames(bodies: seq<seq<Octet>>, rest: seq<Octet>)

  function DecodeFrames(s: seq<Octet>): (r: Frames)
    decreases |s|
  {
    if |s| < 4 then Frames([], s)
    else
      var len := LengthOf(s[..4]);
      if |s| - 4 < len then Frames([], s)
      else
        var tail := DecodeFrames(s[4 + len..]);
        Frames([s[4..4 + len]] + tail.bodies, tail.rest)
  }

  lemma OneFrame(p: seq<Octet>, more: seq<Octet>)
    ensures var s := HeaderOf(|p|) + p + more;
            var len := |p| % HEADER_RANGE;
            |s| >= 4 + len && LengthOf(s[..4]) == len
            && s[4..4 + len] == p[..len] && s[4 + len..] == p[len..] + more
  {
    LengthOfHeader(|p|);
    var s := HeaderOf(|p|) + p + more;
    assert s[..4] == HeaderOf(|p|);
  }

  /** Frames read back exactly, in order and with nothing left over, if and only if no payload is
      too long for the length field. */
  lemma {:induction false} FramesReadBack(ps: seq<seq<Octet>>)
    ensures DecodeFrames(EncodeFrames(ps)) == Frames(ps, [])
            <==> forall i :: 0 <= i < |ps| ==> |ps[i]| < HEADER_RANGE
  {
    if ps != [] {
      var p, more := ps[0], EncodeFrames(ps[1..]);
      var len := |p| % HEADER_RANGE;
      DecodesFirst(p, more);
      if |p| < HEADER_RANGE {
        assert p[..len] == p && p[len..] + more == more;
        FramesReadBack(ps[1..]);
        FirstAndRest(p, DecodeFrames(more), ps);
      } else {
        FirstCut(ps, len, DecodeFrames(p[len..] + more));
      }
    }
  }

  /** A payload cut short is not the payload. */
  lemma FirstCut(ps: seq<seq<Octet>>, len: nat, tail: Frames)
    requires ps != [] && len < |ps[0]|
    ensures Frames([ps[0][..len]] + tail.bodies, tail.rest) != Frames(ps, [])
  {
    assert ([ps[0][..len]] + tail.bodies)[0] != ps[0];
  }

  lemma DecodesFirst(p: seq<Octet>, more: seq<Octet>)
    ensures var len := |p| % HEADER_RANGE;
            var tail := DecodeFrames(p[len..] + more);
            DecodeFrames(HeaderOf(|p|) + p + more) == Frames([p[..len]] + tail.bodies, tail.rest)
  {
    OneFrame(p, more);
  }

  lemma FirstAndRest(p: seq<Octet>, tail: Frames, ps: seq<seq<Octet>>)
    requires ps != [] && ps[0] == p
    ensures Frames([p] + tail.bodies, tail.rest) == Frames(ps, []) <==> tail == Frames(ps[1..], [])
    ensures (forall i :: 0 <= i < |ps| ==> |ps[i]| < HEADER_RANGE)
            <==> |p| < HEADER_RANGE && forall i :: 0 <= i < |ps[1..]| ==> |ps[1..][i]| < HEADER_RANGE
  {
    assert ps == [p] + ps[1..];
    assert ([p] + tail.bodies)[1..] == tail.bodies;
    assert forall i :: 1 <= i < |ps| ==> ps[i] == ps[1..][i - 1];
  }

  /** While payloads stay below 2^24 octets, the first octet of every header is the zero that the
      RawSocket transport asks of a regular message. */
  lemma RegularMessageMarker(p: seq<Octet>)
    requires |p| < HEADER_RANGE
    ensures HeaderOf(|p|)[0] == 0 <==> |p| < 0x100_0000
  {
    LengthOfHeader(|p|);
  }

  /** The output stream as send() writes it, when both writes succeed. */
  class Stream {
    var octets: seq<Octet>
    ghost var payloads: seq<seq<Octet>>

    ghost predicate Valid()
      reads this
    {
      octets == EncodeFrames(payloads)
    }

    constructor ()
      ensures Valid() && payloads == []
    {
      octets, payloads := [], [];
    }

    method Send(p: seq<Octet>)
      requires Valid()
      modifies this
      ensures Valid() && payloads == old(payloads) + [p]
    {
      octets := octets + HeaderOf(|p|);
      octets := octets + p;
      EncodeSnoc(payloads, p);
      payloads := payloads + [p];
    }
  }

  lemma {:induction false} EncodeSnoc(ps: seq<seq<Octet>>, p: seq<Octet>)
    ensures EncodeFrames(ps + [p]) == EncodeFrames(ps) + HeaderOf(|p|) + p
  {
    if ps == [] {
      assert [p][1..] == [];
    } else {
      EncodeSnoc(ps[1..], p);
      assert (ps + [p])[1..] == ps[1..] + [p];
    }
  }

  // ---------------------------------------------------------------- draining the unpacker

  /** Every whole message at the front of the unpacker buffer, and the unfinished remainder. */
  datatype Drained = Drained(messages: seq<Value>, rest: seq<Token>)

  function Drain(ts: seq<Token>): (r: Drained)
    decreases |ts|
  {
    var r := Parse(ts);
    if r.More? then Drained([], ts)
    else
      var tail := Drain(r.rest);
      Drained([r.value] + tail.messages, tail.rest)
  }

  /** What a series of frame bodies hands to got_message, starting with `buffered` tokens. */
  function Receive(buffered: seq<Token>, bodies: seq<seq<Token>>): Drained
    decreases |bodies|
  {
    if bodies == [] then Drained([], buffered)
    else
      var first := Drain(buffered + bodies[0]);
      var later := Receive(first.rest, bodies[1..]);
      Drained(first.messages + later.messages, later.rest)
  }

  /** Later bodies only add messages. */
  lemma {:induction false} ReceiveAppend(buffered: seq<Token>, a: seq<seq<Token>>, b: seq<seq<Token>>)
    ensures var first := Receive(buffered, a);
            Receive(buffered, a + b).messages == first.messages + Receive(first.rest, b).messages
    decreases |a|
  {
    if a == [] {
      assert a + b == b;
    } else {
      var d := Drain(buffered + a[0]);
      assert (a + b)[1..] == a[1..] + b;
      ReceiveAppend(d.rest, a[1..], b);
      Sequences.Regroup(d.messages, Receive(d.rest, a[1..]).messages,
                        Receive(Receive(d.rest, a[1..]).rest, b).messages);
    }
  }

  function Concat(bodies: seq<seq<Token>>): seq<Token> {
    if bodies == [] then [] else bodies[0] + Concat(bodies[1..])
  }

  /** Draining early and then again after more input is draining once at the end. */
  lemma {:induction false} DrainAppend(ts: seq<Token>, more: seq<Token>)
    requires WellFormed(ts)
    ensures var first := Drain(ts);
            WellFormed(first.rest)
            && Drain(ts + more) == Drained(first.messages + Drain(first.rest + more).messages,
                                           Drain(first.rest + more).rest)
    decreases |ts|
  {
    var r := Parse(ts);
    if r.Got? {
      ParseExtends(ts, more);
      FlattenParse(ts);
      Suffix(ts, Flatten(r.value), r.rest);
      DrainAppend(r.rest, more);
      var deep := Drain(Drain(r.rest).rest + more);
      assert [r.value] + (Drain(r.rest).messages + deep.messages)
             == ([r.value] + Drain(r.rest).messages) + deep.messages;
    } else {
      assert [] + Drain(ts + more).messages == Drain(ts + more).messages;
    }
  }

  /** However a token stream is cut into bodies, the same messages are handed over in the same
      order, and the same unfinished tokens stay buffered. */
  lemma {:induction false} FramingIndependent(buffered: seq<Token>, bodies: seq<seq<Token>>)
    requires WellFormed(buffered) && Drain(buffered).messages == []
    requires forall i :: 0 <= i < |bodies| ==> WellFormed(bodies[i])
    ensures Receive(buffered, bodies) == Drain(buffered + Concat(bodies))
    decreases |bodies|
  {
    if bodies == [] {
      assert buffered + [] == buffered;
    } else {
      var joined := buffered + bodies[0];
      var first := Drain(joined);
      JoinedWellFormed(buffered, bodies[0]);
      RestWellFormed(joined);
      RestIsStuck(joined);
      var more := bodies[1..];
      assert forall i :: 0 <= i < |more| ==> more[i] == bodies[i + 1];
      FramingIndependent(first.rest, more);
      DrainTwice(joined, Concat(more), Receive(first.rest, more));
      Sequences.Regroup(buffered, bodies[0], Concat(more));
    }
  }

  lemma DrainTwice(ts: seq<Token>, more: seq<Token>, later: Drained)
    requires WellFormed(ts) && later == Drain(Drain(ts).rest + more)
    ensures Drain(ts + more) == Drained(Drain(ts).messages + later.messages, later.rest)
  {
    DrainAppend(ts, more);
  }

  lemma JoinedWellFormed(a: seq<Token>, b: seq<Token>)
    requires WellFormed(a) && WellFormed(b)
    ensures WellFormed(a + b)
  {
    forall i | 0 <= i < |a + b| && (a + b)[i].Atom?
      ensures IsAtom((a + b)[i].v)
    {
      if i < |a| { assert (a + b)[i] == a[i]; } else { assert (a + b)[i] == b[i - |a|]; }
    }
  }

  lemma RestWellFormed(ts: seq<Token>)
    requires WellFormed(ts)
    ensures WellFormed(Drain(ts).rest)
  {
    DrainAppend(ts, []);
  }

  lemma {:induction false} RestIsStuck(ts: seq<Token>)
    ensures Drain(Drain(ts).rest) == Drained([], Drain(ts).rest)
    decreases |ts|
  {
    if Parse(ts).Got? {
      RestIsStuck(Parse(ts).rest);
    }
  }

  /** The packed messages themselves come out, one for one, for every way of cutting their stream. */
  lemma {:induction false} CutMessages(messages: seq<Value>, bodies: seq<seq<Token>>)
    requires Concat(bodies) == FlattenAll(messages)
    ensures Receive([], bodies) == Drained(messages, [])
  {
    FlattenAllWellFormed(messages);
    PiecesWellFormed(bodies);
    FramingIndependent([], bodies);
    assert [] + Concat(bodies) == Concat(bodies);
    DrainAll(messages);
  }

  lemma {:induction false} DrainAll(messages: seq<Value>)
    ensures Drain(FlattenAll(messages)) == Drained(messages, [])
  {
    if messages != [] {
      ParseFlatten(messages[0], FlattenAll(messages[1..]));
      DrainAll(messages[1..]);
      assert messages == [messages[0]] + messages[1..];
    }
  }

  lemma {:induction false} PiecesWellFormed(bodies: seq<seq<Token>>)
    requires WellFormed(Concat(bodies))
    ensures forall i :: 0 <= i < |bodies| ==> WellFormed(bodies[i])
  {
    if bodies != [] {
      var head, tail := bodies[0], Concat(bodies[1..]);
      forall i | 0 <= i < |head| && head[i].Atom?
        ensures IsAtom(head[i].v)
      {
        assert head[i] == (head + tail)[i];
      }
      Suffix(Concat(bodies), head, tail);
      PiecesWellFormed(bodies[1..]);
      assert forall i :: 1 <= i < |bodies| ==> bodies[i] == bodies[1..][i - 1];
    }
  }
}
