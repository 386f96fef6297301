/** MessagePack values, and the flat token stream that a packer writes and an unpacker reads.

    A token stands for one packer call (pack_array, pack_map, or pack of an atom).  The stream
    carries no closing brackets, so it is well formed only when every header is followed by
    exactly as many values as it announces. */
module Values {
  import Sequences

  datatype Option<+T> = None | Some(value: T)

  /** The object kinds that the session's type checks tell apart. */
  datatype Value =
    | Nil
    | Bool(b: bool)
    | UInt(n: nat)
    | NegInt(k: int)
    | Float(bits: nat)
    | Str(s: string)
    | Bin(octets: string)
    | Array(items: seq<Value>)
    | Dict(entries: seq<Entry>)

  datatype Entry = Entry(key: Value, val: Value)

  datatype Token = Atom(v: Value) | ArrayHeader(n: nat) | MapHeader(n: nat)

  predicate IsAtom(v: Value) {
    !v.Array? && !v.Dict?
  }

  // ---------------------------------------------------------------- packing

  function Flatten(v: Value): seq<Token>
    decreases v, 1
  {
    match v
    case Array(items) => [ArrayHeader(|items|)] + FlattenAll(items)
    case Dict(entries) => [MapHeader(|entries|)] + FlattenEntries(entries)
    case _ => [Atom(v)]
  }

  function FlattenAll(vs: seq<Value>): seq<Token>
    decreases vs, 0
  {
    if vs == [] then [] else Flatten(vs[0]) + FlattenAll(vs[1..])
  }

  function FlattenEntries(es: seq<Entry>): seq<Token>
    decreases es, 0
  {
    if es == [] then []
    else FlattenEntry(es[0]) + FlattenEntries(es[1..])
  }

  function FlattenEntry(e: Entry): seq<Token>
    decreases e, 1
  {
    Flatten(e.key) + Flatten(e.val)
  }

  // ---------------------------------------------------------------- unpacking

  datatype Parsed<T> = More | Got(value: T, rest: seq<Token>)

  /** Reads one complete value off the front of the stream; `More` when the stream stops short. */
  function Parse(ts: seq<Token>): (r: Parsed<Value>)
    ensures r.Got? ==> |r.rest| < |ts|
    decreases |ts|, 0, 0
  {
    if ts == [] then More
    else match ts[0]
      case Atom(v) => Got(v, ts[1..])
      case ArrayHeader(n) =>
        var r := ParseMany(n, ts[1..]);
        if r.More? then More else Got(Array(r.value), r.rest)
      case MapHeader(n) =>
        var r := ParseEntries(n, ts[1..]);
        if r.More? then More else Got(Dict(r.value), r.rest)
  }

  function ParseMany(n: nat, ts: seq<Token>): (r: Parsed<seq<Value>>)
    ensures r.Got? ==> |r.rest| <= |ts|
    decreases |ts|, 1, n
  {
    if n == 0 then Got([], ts)
    else
      var head := Parse(ts);
      if head.More? then More else
      var tail := ParseMany(n - 1, head.rest);
      if tail.More? then More else Got([head.value] + tail.value, tail.rest)
  }

  function ParseEntries(n: nat, ts: seq<Token>): (r: Parsed<seq<Entry>>)
    ensures r.Got? ==> |r.rest| <= |ts|
    decreases |ts|, 1, n
  {
    if n == 0 then Got([], ts)
    else
      var key := Parse(ts);
      if key.More? then More else
      var val := Parse(key.rest);
      if val.More? then More else
      var tail := ParseEntries(n - 1, val.rest);
      if tail.More? then More else Got([Entry(key.value, val.value)] + tail.value, tail.rest)
  }

  // ---------------------------------------------------------------- round trip

  /** Whatever follows it, a packed value is read back whole and the reader stops right after it. */
  lemma {:induction false} ParseFlatten(v: Value, rest: seq<Token>)
    ensures Parse(Flatten(v) + rest) == Got(v, rest)
    decreases v, 1
  {
    var ts := Flatten(v) + rest;
    match v
    case Array(items) =>
      ParseFlattenAll(items, rest);
      assert ts[1..] == FlattenAll(items) + rest;
    case Dict(entries) =>
      ParseFlattenEntries(entries, rest);
      assert ts[1..] == FlattenEntries(entries) + rest;
    case _ =>
      assert ts[1..] == rest;
  }

  lemma {:induction false} ParseFlattenAll(vs: seq<Value>, rest: seq<Token>)
    ensures ParseMany(|vs|, FlattenAll(vs) + rest) == Got(vs, rest)
    decreases vs, 0
  {
    if vs == [] {
      assert FlattenAll(vs) + rest == rest;
    } else {
      var tail := FlattenAll(vs[1..]) + rest;
      Sequences.Regroup(Flatten(vs[0]), FlattenAll(vs[1..]), rest);
      ParseFlatten(vs[0], tail);
      ParseFlattenAll(vs[1..], rest);
      assert ParseMany(|vs|, Flatten(vs[0]) + tail) == Got([vs[0]] + vs[1..], rest);
      assert vs == [vs[0]] + vs[1..];
    }
  }

  lemma {:induction false} ParseFlattenEntries(es: seq<Entry>, rest: seq<Token>)
    ensures ParseEntries(|es|, FlattenEntries(es) + rest) == Got(es, rest)
    decreases es, 0
  {
    if es == [] {
      assert FlattenEntries(es) + rest == rest;
    } else {
      var tail := FlattenEntries(es[1..]) + rest;
      Sequences.Regroup(FlattenEntry(es[0]), FlattenEntries(es[1..]), rest);
      ParseFlattenEntry(es[0], tail);
      ParseFlattenEntries(es[1..], rest);
      assert ParseEntries(|es|, FlattenEntry(es[0]) + tail) == Got([Entry(es[0].key, es[0].val)] + es[1..], rest);
      assert es == [es[0]] + es[1..];
    }
  }

  lemma {:induction false} ParseFlattenEntry(e: Entry, rest: seq<Token>)
    ensures Parse(FlattenEntry(e) + rest) == Got(e.key, Flatten(e.val) + rest)
    ensures Parse(Flatten(e.val) + rest) == Got(e.val, rest)
    decreases e, 1
  {
    assert FlattenEntry(e) + rest == Flatten(e.key) + (Flatten(e.val) + rest);
    ParseFlatten(e.key, Flatten(e.val) + rest);
    ParseFlatten(e.val, rest);
  }

  /** Tokens an unpacker can meet: an atom token holds an atom. */
  predicate WellFormed(ts: seq<Token>) {
    forall i :: 0 <= i < |ts| && ts[i].Atom? ==> IsAtom(ts[i].v)
  }

  /** The other direction: a value that was read is exactly the tokens taken off the stream, so
      no two token streams read as the same value. */
  lemma {:induction false} FlattenParse(ts: seq<Token>)
    requires WellFormed(ts) && Parse(ts).Got?
    ensures ts == Flatten(Parse(ts).value) + Parse(ts).rest
    decreases |ts|, 0, 0
  {
    match ts[0]
    case Atom(v) =>
    case ArrayHeader(n) =>
      FlattenParseMany(n, ts[1..]);
      assert ts == [ts[0]] + ts[1..];
    case MapHeader(n) =>
      FlattenParseEntries(n, ts[1..]);
      assert ts == [ts[0]] + ts[1..];
  }

  lemma {:induction false} FlattenParseMany(n: nat, ts: seq<Token>)
    requires WellFormed(ts) && ParseMany(n, ts).Got?
    ensures var r := ParseMany(n, ts); |r.value| == n && ts == FlattenAll(r.value) + r.rest
    decreases |ts|, 1, n
  {
    if n > 0 {
      FlattenParse(ts);
      var head := Parse(ts);
      assert WellFormed(head.rest) by { Suffix(ts, Flatten(head.value), head.rest); }
      FlattenParseMany(n - 1, head.rest);
      var tail := ParseMany(n - 1, head.rest);
      assert ([head.value] + tail.value)[1..] == tail.value;
    }
  }

  lemma {:induction false} FlattenParseEntries(n: nat, ts: seq<Token>)
    requires WellFormed(ts) && ParseEntries(n, ts).Got?
    ensures var r := ParseEntries(n, ts); |r.value| == n && ts == FlattenEntries(r.value) + r.rest
    decreases |ts|, 1, n
  {
    if n > 0 {
      var e, rest := FlattenParseEntry(ts);
      FlattenParseEntries(n - 1, rest);
      var tail := ParseEntries(n - 1, rest);
      assert ([e] + tail.value)[1..] == tail.value;
      assert FlattenEntry(e) + (FlattenEntries(tail.value) + tail.rest)
             == FlattenEntry(e) + FlattenEntries(tail.value) + tail.rest;
    }
  }

  lemma {:induction false} FlattenParseEntry(ts: seq<Token>) returns (e: Entry, rest: seq<Token>)
    requires WellFormed(ts) && Parse(ts).Got? && Parse(Parse(ts).rest).Got?
    ensures e == Entry(Parse(ts).value, Parse(Parse(ts).rest).value) && rest == Parse(Parse(ts).rest).rest
    ensures ts == FlattenEntry(e) + rest && WellFormed(rest)
    decreases |ts|, 0, 1
  {
    FlattenParse(ts);
    var key := Parse(ts);
    Suffix(ts, Flatten(key.value), key.rest);
    FlattenParse(key.rest);
    var val := Parse(key.rest);
    Suffix(key.rest, Flatten(val.value), val.rest);
    e, rest := Entry(key.value, val.value), val.rest;
  }

  lemma Suffix(ts: seq<Token>, a: seq<Token>, b: seq<Token>)
    requires WellFormed(ts) && ts == a + b
    ensures WellFormed(b)
  {
    forall i | 0 <= i < |b| && b[i].Atom?
      ensures IsAtom(b[i].v)
    {
      assert b[i] == ts[|a| + i];
    }
  }

  /** More input never changes what was already read. */
  lemma ParseExtends(ts: seq<Token>, more: seq<Token>)
    requires WellFormed(ts) && Parse(ts).Got?
    ensures Parse(ts + more) == Got(Parse(ts).value, Parse(ts).rest + more)
  {
    var r := Parse(ts);
    FlattenParse(ts);
    assert ts + more == Flatten(r.value) + (r.rest + more);
    ParseFlatten(r.value, r.rest + more);
  }

  lemma {:induction false} FlattenWellFormed(v: Value)
    ensures WellFormed(Flatten(v))
    decreases v, 1
  {
    match v
    case Array(items) => FlattenAllWellFormed(items);
    case Dict(entries) => FlattenEntriesWellFormed(entries);
    case _ =>
  }

  lemma {:induction false} FlattenAllWellFormed(vs: seq<Value>)
    ensures WellFormed(FlattenAll(vs))
    decreases vs, 0
  {
    if vs != [] {
      FlattenWellFormed(vs[0]);
      FlattenAllWellFormed(vs[1..]);
    }
  }

  lemma {:induction false} FlattenEntriesWellFormed(es: seq<Entry>)
    ensures WellFormed(FlattenEntries(es))
    decreases es, 0
  {
    if es != [] {
      FlattenEntryWellFormed(es[0]);
      FlattenEntriesWellFormed(es[1..]);
    }
  }

  lemma {:induction false} FlattenEntryWellFormed(e: Entry)
    ensures WellFormed(FlattenEntry(e))
    decreases e, 1
  {
    FlattenWellFormed(e.key);
    FlattenWellFormed(e.val);
  }
}
