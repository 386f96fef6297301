/** The WAMP messages a client session writes, their array layouts, and the packer calls that
    build them. */
module Wire {
  import opened Values
  import Sequences

  // Message codes, WAMP Basic Profile "Message Codes and Direction".
  const HELLO := 1
  const WELCOME := 2
  const ABORT := 3
  const CHALLENGE := 4
  const AUTHENTICATE := 5
  const GOODBYE := 6
  const HEARTBEAT := 7
  const ERROR := 8
  const PUBLISH := 16
  const PUBLISHED := 17
  const SUBSCRIBE := 32
  const SUBSCRIBED := 33
  const UNSUBSCRIBE := 34
  const UNSUBSCRIBED := 35
  const EVENT := 36
  const CALL := 48
  const CANCEL := 49
  const RESULT := 50
  const REGISTER := 64
  const REGISTERED := 65
  const UNREGISTER := 66
  const UNREGISTERED := 67
  const INVOCATION := 68
  const INTERRUPT := 69
  const YIELD := 70

  /** The optional tail of a message: positional arguments, then keyword arguments. */
  datatype Payload = NoArgs | Args(args: seq<Value>) | ArgsKw(args: seq<Value>, kw: seq<Entry>)

  datatype WireMsg =
    | Hello(realm: string)
    | Goodbye(reason: string)
    | Subscribe(id: nat, topic: string)
    | Unsubscribe(id: nat, subscription: nat)
    | Register(id: nat, options: seq<Entry>, name: string)
    | Publish(id: nat, topic: string, payload: Payload)
    | Call(id: nat, name: string, payload: Payload)
    | Yield(invocation: nat, payload: Payload)
    | ErrorReply(invocation: nat, uri: string, payload: Payload)

  // ---------------------------------------------------------------- layout

  function PayloadItems(p: Payload): seq<Value> {
    match p
    case NoArgs => []
    case Args(args) => [Array(args)]
    case ArgsKw(args, kw) => [Array(args), Dict(kw)]
  }

  const ROLES: Value := Dict([EmptyRole("caller"), EmptyRole("callee"),
                              EmptyRole("publisher"), EmptyRole("subscriber")])

  function EmptyRole(role: string): Entry {
    Entry(Str(role), Dict([]))
  }

  function Items(m: WireMsg): seq<Value> {
    match m
    case Hello(realm) => [UInt(HELLO), Str(realm), Dict([Entry(Str("roles"), ROLES)])]
    case Goodbye(reason) => [UInt(GOODBYE), Dict([]), Str(reason)]
    case Subscribe(id, topic) => [UInt(SUBSCRIBE), UInt(id), Dict([]), Str(topic)]
    case Unsubscribe(id, subscription) => [UInt(UNSUBSCRIBE), UInt(id), UInt(subscription)]
    case Register(id, options, name) => [UInt(REGISTER), UInt(id), Dict(options), Str(name)]
    case Publish(id, topic, payload) =>
      [UInt(PUBLISH), UInt(id), Dict([]), Str(topic)] + PayloadItems(payload)
    case Call(id, name, payload) =>
      [UInt(CALL), UInt(id), Dict([]), Str(name)] + PayloadItems(payload)
    case Yield(invocation, payload) =>
      [UInt(YIELD), UInt(invocation), Dict([])] + PayloadItems(payload)
    case ErrorReply(invocation, uri, payload) =>
      [UInt(ERROR), UInt(INVOCATION), UInt(invocation), Dict([]), Str(uri)] + PayloadItems(payload)
  }

  function Encode(m: WireMsg): Value {
    Array(Items(m))
  }

  // ---------------------------------------------------------------- a reader of the layouts

  /** Reads the optional arguments that start at position `from`. */
  function DecodePayload(items: seq<Value>, from: nat): Option<Payload>
    requires from <= |items|
  {
    if |items| == from then Some(NoArgs)
    else if |items| == from + 1 && items[from].Array? then Some(Args(items[from].items))
    else if |items| == from + 2 && items[from].Array? && items[from + 1].Dict? then
      Some(ArgsKw(items[from].items, items[from + 1].entries))
    else None
  }

  function DecodeTail(items: seq<Value>, from: nat, wrap: Payload -> WireMsg): Option<WireMsg>
    requires from <= |items|
  {
    match DecodePayload(items, from)
    case Some(p) => Some(wrap(p))
    case None => None
  }

  /** The details of a client in all four roles, in any order, with no features. */
  predicate FourRoles(details: Value) {
    && details.Dict? && |details.entries| == 1 && details.entries[0].key == Str("roles")
    && details.entries[0].val.Dict?
    && multiset(details.entries[0].val.entries)
       == multiset{Entry(Str("caller"), Dict([])), Entry(Str("callee"), Dict([])),
                   Entry(Str("publisher"), Dict([])), Entry(Str("subscriber"), Dict([]))}
  }

  /** What a router following the WAMP Basic Profile reads from one array; written from the
      message layouts and independent of `Encode`.  An array with options or details says more than
      these messages can, except for the roles of HELLO and the options of REGISTER. */
  function Decode(v: Value): Option<WireMsg> {
    if !v.Array? || |v.items| < 3 || !v.items[0].UInt? then None
    else
      var t := v.items;
      var code := t[0].n;
      if code == 1 && |t| == 3 && t[1].Str? && FourRoles(t[2]) then Some(Hello(t[1].s))
      else if code == 6 && |t| == 3 && t[1] == Dict([]) && t[2].Str? then Some(Goodbye(t[2].s))
      else if code == 34 && |t| == 3 && t[1].UInt? && t[2].UInt? then
        Some(Unsubscribe(t[1].n, t[2].n))
      else if code == 70 && t[1].UInt? && t[2] == Dict([]) then
        DecodeTail(t, 3, p => Yield(t[1].n, p))
      else if |t| < 4 then None
      else if code == 32 && |t| == 4 && t[1].UInt? && t[2] == Dict([]) && t[3].Str? then
        Some(Subscribe(t[1].n, t[3].s))
      else if code == 64 && |t| == 4 && t[1].UInt? && t[2].Dict? && t[3].Str? then
        Some(Register(t[1].n, t[2].entries, t[3].s))
      else if code == 16 && t[1].UInt? && t[2] == Dict([]) && t[3].Str? then
        DecodeTail(t, 4, p => Publish(t[1].n, t[3].s, p))
      else if code == 48 && t[1].UInt? && t[2] == Dict([]) && t[3].Str? then
        DecodeTail(t, 4, p => Call(t[1].n, t[3].s, p))
      else if code == 8 && |t| >= 5 && t[1] == UInt(68) && t[2].UInt? && t[3] == Dict([])
              && t[4].Str? then
        DecodeTail(t, 5, p => ErrorReply(t[2].n, t[4].s, p))
      else None
  }

  lemma DecodeItems(m: WireMsg)
    ensures Decode(Encode(m)) == Some(m)
  {
    match m
    case Publish(_, _, p) => PayloadAfter(Items(m)[..4], p); assert Items(m) == Items(m)[..4] + PayloadItems(p);
    case Call(_, _, p) => PayloadAfter(Items(m)[..4], p); assert Items(m) == Items(m)[..4] + PayloadItems(p);
    case Yield(_, p) => PayloadAfter(Items(m)[..3], p); assert Items(m) == Items(m)[..3] + PayloadItems(p);
    case ErrorReply(_, _, p) => PayloadAfter(Items(m)[..5], p); assert Items(m) == Items(m)[..5] + PayloadItems(p);
    case _ =>
  }

  lemma PayloadAfter(front: seq<Value>, p: Payload)
    ensures DecodePayload(front + PayloadItems(p), |front|) == Some(p)
  {
    var all := front + PayloadItems(p);
    match p
    case NoArgs =>
    case Args(args) => assert all[|front|] == Array(args);
    case ArgsKw(args, kw) => assert all[|front|] == Array(args) && all[|front| + 1] == Dict(kw);
  }

  /** The tokens of a message, whatever stands behind them in the stream, are read as one complete
      array, and that array says exactly what the message says. */
  lemma MessageReadsBack(m: WireMsg, rest: seq<Token>)
    ensures var r := Parse(Flatten(Encode(m)) + rest);
            r.Got? && r.rest == rest && r.value == Encode(m) && Decode(r.value) == Some(m)
  {
    ParseFlatten(Encode(m), rest);
    DecodeItems(m);
  }

  // ---------------------------------------------------------------- packer calls

  /** msgpack::packer over one buffer. */
  class Packer {
    var buffer: seq<Token>
    /** What the opening pack_array announced, and the values packed since. */
    ghost const announced: nat
    ghost var packed: seq<Value>

    ghost predicate Packing()
      reads this
    {
      buffer == [ArrayHeader(announced)] + FlattenAll(packed)
    }

    /** A fresh buffer that opens with pack_array(n). */
    constructor (n: nat)
      ensures Packing() && announced == n && packed == []
    {
      buffer := [ArrayHeader(n)];
      announced := n;
      packed := [];
    }

    method Pack(v: Value)
      requires Packing()
      modifies this
      ensures Packing() && packed == old(packed) + [v]
    {
      buffer := buffer + Flatten(v);
      FlattenAllSnoc(packed, v);
      packed := packed + [v];
    }

    /** pack_map(0). */
    method PackEmptyMap()
      requires Packing()
      modifies this
      ensures Packing() && packed == old(packed) + [Dict([])]
    {
      buffer := buffer + [MapHeader(0)];
      FlattenAllSnoc(packed, Dict([]));
      packed := packed + [Dict([])];
    }

    /** The nested pack_map calls of join(): one key "roles" over four roles with empty maps. */
    method PackRoles()
      requires Packing()
      modifies this
      ensures Packing() && packed == old(packed) + [Dict([Entry(Str("roles"), ROLES)])]
    {
      var roles := [MapHeader(1), Atom(Str("roles")), MapHeader(4),
                    Atom(Str("caller")), MapHeader(0), Atom(Str("callee")), MapHeader(0),
                    Atom(Str("publisher")), MapHeader(0), Atom(Str("subscriber")), MapHeader(0)];
      buffer := buffer + roles;
      RolesTokens();
      FlattenAllSnoc(packed, Dict([Entry(Str("roles"), ROLES)]));
      packed := packed + [Dict([Entry(Str("roles"), ROLES)])];
    }

    method PackPayload(p: Payload)
      requires Packing()
      modifies this
      ensures Packing() && packed == old(packed) + PayloadItems(p)
    {
      match p
      case NoArgs =>
      case Args(args) =>
        Pack(Array(args));
      case ArgsKw(args, kw) =>
        Pack(Array(args));
        Pack(Dict(kw));
    }
  }

  lemma {:induction false} FlattenAllSnoc(vs: seq<Value>, v: Value)
    ensures FlattenAll(vs + [v]) == FlattenAll(vs) + Flatten(v)
  {
    if vs == [] {
      assert vs + [v] == [v];
      assert [v][1..] == [];
    } else {
      assert (vs + [v])[1..] == vs[1..] + [v];
      FlattenAllSnoc(vs[1..], v);
      Sequences.Regroup(Flatten(vs[0]), FlattenAll(vs[1..]), Flatten(v));
    }
  }

  lemma RolesTokens()
    ensures Flatten(Dict([Entry(Str("roles"), ROLES)])) ==
            [MapHeader(1), Atom(Str("roles")), MapHeader(4),
             Atom(Str("caller")), MapHeader(0), Atom(Str("callee")), MapHeader(0),
             Atom(Str("publisher")), MapHeader(0), Atom(Str("subscriber")), MapHeader(0)]
  {
    FourEmptyMaps("roles", "caller", "callee", "publisher", "subscriber");
  }

  /** One key over a dictionary of four keys with empty dictionaries. */
  lemma FourEmptyMaps(key: string, a: string, b: string, c: string, d: string)
    ensures var r := [EmptyRole(a), EmptyRole(b), EmptyRole(c), EmptyRole(d)];
            Flatten(Dict([Entry(Str(key), Dict(r))])) ==
            [MapHeader(1), Atom(Str(key)), MapHeader(4), Atom(Str(a)), MapHeader(0), Atom(Str(b)), MapHeader(0),
             Atom(Str(c)), MapHeader(0), Atom(Str(d)), MapHeader(0)]
  {
    var r := [EmptyRole(a), EmptyRole(b), EmptyRole(c), EmptyRole(d)];
    RoleTokens(a);
    RoleTokens(b);
    RoleTokens(c);
    RoleTokens(d);
    FlattenTwo(r[2], r[3]);
    assert r[1..][1..] == [r[2], r[3]];
    assert r[1..][0] == r[1];
    assert FlattenEntries(r) == FlattenEntry(r[0]) + (FlattenEntry(r[1]) + FlattenEntries(r[1..][1..]));
    FlattenOne(Entry(Str(key), Dict(r)));
  }

  lemma FlattenOne(e: Entry)
    ensures FlattenEntries([e]) == FlattenEntry(e)
  {
    assert [e][1..] == [];
  }

  lemma FlattenTwo(d: Entry, e: Entry)
    ensures FlattenEntries([d, e]) == FlattenEntry(d) + FlattenEntry(e)
  {
    assert [d, e][1..] == [e];
    FlattenOne(e);
  }

  lemma RoleTokens(role: string)
    ensures FlattenEntry(EmptyRole(role)) == [Atom(Str(role)), MapHeader(0)]
  {
  }

  method BuildHello(realm: string) returns (buffer: seq<Token>)
    ensures buffer == Flatten(Encode(Hello(realm)))
  {
    var p := new Packer(3);
    p.Pack(UInt(HELLO));
    p.Pack(Str(realm));
    p.PackRoles();
    assert p.packed == Items(Hello(realm));
    return p.buffer;
  }

  method BuildGoodbye(reason: string) returns (buffer: seq<Token>)
    ensures buffer == Flatten(Encode(Goodbye(reason)))
  {
    var p := new Packer(3);
    p.Pack(UInt(GOODBYE));
    p.PackEmptyMap();
    p.Pack(Str(reason));
    assert p.packed == Items(Goodbye(reason));
    return p.buffer;
  }

  method BuildSubscribe(id: nat, topic: string) returns (buffer: seq<Token>)
    ensures buffer == Flatten(Encode(Subscribe(id, topic)))
  {
    var p := new Packer(4);
    p.Pack(UInt(SUBSCRIBE));
    p.Pack(UInt(id));
    p.PackEmptyMap();
    p.Pack(Str(topic));
    assert p.packed == Items(Subscribe(id, topic));
    return p.buffer;
  }

  method BuildUnsubscribe(id: nat, subscription: nat) returns (buffer: seq<Token>)
    ensures buffer == Flatten(Encode(Unsubscribe(id, subscription)))
  {
    var p := new Packer(3);
    p.Pack(UInt(UNSUBSCRIBE));
    p.Pack(UInt(id));
    p.Pack(UInt(subscription));
    assert p.packed == Items(Unsubscribe(id, subscription));
    return p.buffer;
  }

  method BuildRegister(id: nat, options: seq<Entry>, name: string) returns (buffer: seq<Token>)
    ensures buffer == Flatten(Encode(Register(id, options, name)))
  {
    var p := new Packer(4);
    p.Pack(UInt(REGISTER));
    p.Pack(UInt(id));
    p.Pack(Dict(options));
    p.Pack(Str(name));
    assert p.packed == Items(Register(id, options, name));
    return p.buffer;
  }

  /** How many values a payload adds to the array header. */
  function Extra(p: Payload): nat {
    match p case NoArgs => 0 case Args(_) => 1 case ArgsKw(_, _) => 2
  }

  /** The three publish() overloads: array headers 4, 5 and 6. */
  method BuildPublish(id: nat, topic: string, payload: Payload) returns (buffer: seq<Token>)
    ensures buffer == Flatten(Encode(Publish(id, topic, payload)))
  {
    var n := 4 + Extra(payload);
    var p := new Packer(n);
    p.Pack(UInt(PUBLISH));
    p.Pack(UInt(id));
    p.PackEmptyMap();
    p.Pack(Str(topic));
    assert p.packed == [UInt(PUBLISH), UInt(id), Dict([]), Str(topic)];
    p.PackPayload(payload);
    assert p.packed == Items(Publish(id, topic, payload));
    return p.buffer;
  }

  /** The three call() overloads: array headers 4, 5 and 6. */
  method BuildCall(id: nat, name: string, payload: Payload) returns (buffer: seq<Token>)
    ensures buffer == Flatten(Encode(Call(id, name, payload)))
  {
    var n := 4 + Extra(payload);
    var p := new Packer(n);
    p.Pack(UInt(CALL));
    p.Pack(UInt(id));
    p.PackEmptyMap();
    p.Pack(Str(name));
    assert p.packed == [UInt(CALL), UInt(id), Dict([]), Str(name)];
    p.PackPayload(payload);
    assert p.packed == Items(Call(id, name, payload));
    return p.buffer;
  }

  /** empty_result() and the two result() overloads: array headers 3, 4 and 5. */
  method BuildYield(invocation: nat, payload: Payload) returns (buffer: seq<Token>)
    ensures buffer == Flatten(Encode(Yield(invocation, payload)))
  {
    var n := 3 + Extra(payload);
    var p := new Packer(n);
    p.Pack(UInt(YIELD));
    p.Pack(UInt(invocation));
    assert p.packed == [UInt(YIELD), UInt(invocation)];
    p.PackEmptyMap();
    assert p.packed == [UInt(YIELD), UInt(invocation), Dict([])];
    p.PackPayload(payload);
    assert p.packed == Items(Yield(invocation, payload));
    return p.buffer;
  }

  /** The three error() overloads: array headers 5, 6 and 7. */
  method BuildError(invocation: nat, uri: string, payload: Payload) returns (buffer: seq<Token>)
    ensures buffer == Flatten(Encode(ErrorReply(invocation, uri, payload)))
  {
    var n := 5 + Extra(payload);
    var p := new Packer(n);
    p.Pack(UInt(ERROR));
    p.Pack(UInt(INVOCATION));
    p.Pack(UInt(invocation));
    assert p.packed == [UInt(ERROR), UInt(INVOCATION), UInt(invocation)];
    p.PackEmptyMap();
    p.Pack(Str(uri));
    assert p.packed == [UInt(ERROR), UInt(INVOCATION), UInt(invocation), Dict([]), Str(uri)];
    p.PackPayload(payload);
    assert p.packed == Items(ErrorReply(invocation, uri, payload));
    return p.buffer;
  }

  /** The packer calls for any client message. */
  method Build(m: WireMsg) returns (buffer: seq<Token>)
    ensures buffer == Flatten(Encode(m))
  {
    match m
    case Hello(realm) => buffer := BuildHello(realm);
    case Goodbye(reason) => buffer := BuildGoodbye(reason);
    case Subscribe(id, topic) => buffer := BuildSubscribe(id, topic);
    case Unsubscribe(id, subscription) => buffer := BuildUnsubscribe(id, subscription);
    case Register(id, options, name) => buffer := BuildRegister(id, options, name);
    case Publish(id, topic, payload) => buffer := BuildPublish(id, topic, payload);
    case Call(id, name, payload) => buffer := BuildCall(id, name, payload);
    case Yield(invocation, payload) => buffer := BuildYield(invocation, payload);
    case ErrorReply(invocation, uri, payload) => buffer := BuildError(invocation, uri, payload);
  }
}
