/** The handler multimap refines a plain list of (subscription id, handler) pairs. */
module HandlerIndex {
  import opened Session
  import opened Values
  import Sequences

  /** The handlers filed under one key, in list order. */
  function For(hs: seq<(nat, Handler)>, key: nat): seq<Handler> {
    if hs == [] then []
    else (if hs[0].0 == key then [hs[0].1] else []) + For(hs[1..], key)
  }

  ghost predicate Sorted(hs: seq<(nat, Handler)>) {
    forall i, j :: 0 <= i < j < |hs| ==> hs[i].0 <= hs[j].0
  }

  function Names(range: seq<(nat, Handler)>): seq<Handler> {
    if range == [] then [] else [range[0].1] + Names(range[1..])
  }

  lemma SortedTail(hs: seq<(nat, Handler)>)
    requires Sorted(hs) && hs != []
    ensures Sorted(hs[1..]) && forall j :: 0 <= j < |hs[1..]| ==> hs[0].0 <= hs[1..][j].0
  {
    forall i, j | 0 <= i < j < |hs[1..]|
      ensures hs[1..][i].0 <= hs[1..][j].0
    {
      assert hs[1..][i] == hs[i + 1] && hs[1..][j] == hs[j + 1];
    }
  }

  lemma {:induction false} NoneFor(hs: seq<(nat, Handler)>, key: nat)
    requires forall j :: 0 <= j < |hs| ==> hs[j].0 != key
    ensures For(hs, key) == []
  {
    if hs != [] {
      assert forall j :: 0 <= j < |hs[1..]| ==> hs[1..][j] == hs[j + 1];
      NoneFor(hs[1..], key);
    }
  }

  /** What the lower_bound/upper_bound walk visits is exactly what is filed under the key. */
  lemma {:induction false} RangeIsFor(hs: seq<(nat, Handler)>, key: nat)
    requires Sorted(hs)
    ensures LowerBound(hs, key) <= UpperBound(hs, key)
    ensures Names(hs[LowerBound(hs, key)..UpperBound(hs, key)]) == For(hs, key)
  {
    if hs != [] {
      var lo, hi, tail := LowerBound(hs, key), UpperBound(hs, key), hs[1..];
      SortedTail(hs);
      RangeIsFor(tail, key);
      if hs[0].0 < key {
        assert hs[lo..hi] == tail[lo - 1..hi - 1];
      } else if hs[0].0 == key {
        assert LowerBound(tail, key) == 0;
        assert hs[0..hi] == [hs[0]] + tail[0..hi - 1];
      } else {
        NoneFor(hs, key);
      }
    }
  }

  lemma {:induction false} UpperBoundSplits(hs: seq<(nat, Handler)>, key: nat)
    requires Sorted(hs)
    ensures forall j :: 0 <= j < |hs| ==> (hs[j].0 <= key <==> j < UpperBound(hs, key))
  {
    if hs != [] {
      SortedTail(hs);
      UpperBoundSplits(hs[1..], key);
      assert forall j :: 1 <= j < |hs| ==> hs[j] == hs[1..][j - 1];
    }
  }

  lemma {:induction false} ForConcat(a: seq<(nat, Handler)>, b: seq<(nat, Handler)>, key: nat)
    ensures For(a + b, key) == For(a, key) + For(b, key)
  {
    if a == [] {
      assert a + b == b;
    } else {
      ForConcat(a[1..], b, key);
      assert (a + b)[1..] == a[1..] + b;
      Sequences.Regroup(if a[0].0 == key then [a[0].1] else [], For(a[1..], key), For(b, key));
    }
  }

  /** insert() keeps the order, and files one more handler behind those already under its key and
      nothing else. */
  lemma InsertFiles(hs: seq<(nat, Handler)>, key: nat, h: Handler, other: nat)
    requires Sorted(hs)
    ensures For(Insert(hs, key, h), other) == For(hs, other) + if other == key then [h] else []
  {
    var at := UpperBound(hs, key);
    assert hs == hs[..at] + hs[at..];
    ForConcat(hs[..at], hs[at..], other);
    ForBetween(hs[..at], key, h, hs[at..], other);
    if other == key {
      NothingAbove(hs, key);
    }
  }

  lemma ForBetween(a: seq<(nat, Handler)>, key: nat, h: Handler, b: seq<(nat, Handler)>, other: nat)
    ensures For(a + [(key, h)] + b, other) == For(a, other) + (if other == key then [h] else []) + For(b, other)
  {
    ForConcat(a + [(key, h)], b, other);
    ForConcat(a, [(key, h)], other);
    ForOne(key, h, other);
  }

  lemma ForOne(key: nat, h: Handler, other: nat)
    ensures For([(key, h)], other) == if other == key then [h] else []
  {
    assert [(key, h)][1..] == [];
  }

  lemma NothingAbove(hs: seq<(nat, Handler)>, key: nat)
    requires Sorted(hs)
    ensures For(hs[UpperBound(hs, key)..], key) == []
  {
    UpperBoundSplits(hs, key);
    NoneFor(hs[UpperBound(hs, key)..], key);
  }

  lemma InsertSorted(hs: seq<(nat, Handler)>, key: nat, h: Handler)
    requires Sorted(hs)
    ensures Sorted(Insert(hs, key, h))
  {
    UpperBoundSplits(hs, key);
  }

  /** How many handlers of a range get called: all of them, or up to and including the first that
      throws. */
  function Reached(n: nat, o: seq<Behaviour>, i: nat): (r: nat)
    ensures r <= n
  {
    if n == 0 then 0
    else if BehaviourAt(o, i).exit.Returns? then 1 + Reached(n - 1, o, i + 1)
    else 1
  }

  function CallsOf(names: seq<Handler>, args: seq<Value>, kw: seq<Entry>): seq<HandlerCall> {
    if names == [] then [] else [HandlerCall(names[0], args, kw)] + CallsOf(names[1..], args, kw)
  }
}
