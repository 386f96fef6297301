/** The interface change notifier: signals the addresses that a snapshot has and the one before it
    had not. */
module InterfaceChange {
  import opened Interfaces
  import Sequences

  /** The addresses of `a` that are not in `b`, in the order of `a`. */
  function Minus(a: seq<Address>, b: seq<Address>): seq<Address> {
    if a == [] then []
    else (if a[0] in b then [] else [a[0]]) + Minus(a[1..], b)
  }

  lemma {:induction false} MinusSplits(a: seq<Address>, c: seq<Address>, b: seq<Address>)
    ensures Minus(a + c, b) == Minus(a, b) + Minus(c, b)
  {
    if a == [] {
      assert a + c == c;
    } else {
      var first := if a[0] in b then [] else [a[0]];
      MinusSplits(a[1..], c, b);
      assert (a + c)[1..] == a[1..] + c;
      Sequences.Regroup(first, Minus(a[1..], b), Minus(c, b));
    }
  }

  lemma {:induction false} MinusNone(a: seq<Address>, b: seq<Address>)
    requires forall i :: 0 <= i < |a| ==> a[i] !in b
    ensures Minus(a, b) == a
  {
    if a != [] {
      assert forall i :: 0 <= i < |a[1..]| ==> a[1..][i] == a[i + 1];
      MinusNone(a[1..], b);
    }
  }

  lemma MinusNext(a: seq<Address>, i: nat, b: seq<Address>)
    requires i < |a|
    ensures Minus(a[..i + 1], b) == Minus(a[..i], b) + if a[i] in b then [] else [a[i]]
  {
    assert a[..i + 1] == a[..i] + [a[i]];
    MinusSplits(a[..i], [a[i]], b);
    assert Minus([a[i]], b) == (if a[i] in b then [] else [a[i]]) + Minus([], b);
  }

  /** std::set_difference over two sorted ranges: one pass over both. */
  method SetDifference(a: seq<Address>, b: seq<Address>) returns (d: seq<Address>)
    requires Increasing(a) && Increasing(b)
    ensures d == Minus(a, b)
  {
    d := [];
    var i, j := 0, 0;
    while i < |a| && j < |b|
      invariant i <= |a| && j <= |b|
      invariant d == Minus(a[..i], b)
      invariant i < |a| ==> forall k :: 0 <= k < j ==> b[k] < a[i]
      decreases |a| - i + |b| - j
    {
      if a[i] < b[j] {
        Passed(a[i], b, j);
        MinusNext(a, i, b);
        d := d + [a[i]];
        i := i + 1;
      } else {
        if !(b[j] < a[i]) {
          MinusNext(a, i, b);
          i := i + 1;
        }
        j := j + 1;
      }
    }
    Ends(a, i, b);
    d := d + a[i..];
  }

  /** What lies between two neighbours of a sorted range is not in it. */
  lemma Passed(x: Address, b: seq<Address>, j: nat)
    requires Increasing(b) && j < |b| && x < b[j] && forall k :: 0 <= k < j ==> b[k] < x
    ensures x !in b
  {
  }

  lemma Ends(a: seq<Address>, i: nat, b: seq<Address>)
    requires Increasing(a) && i <= |a| && (i < |a| ==> forall k :: 0 <= k < |b| ==> b[k] < a[i])
    ensures Minus(a, b) == Minus(a[..i], b) + a[i..]
  {
    MinusCut(a, i, b);
    Behind(a, i, b);
  }

  lemma MinusCut(a: seq<Address>, i: nat, b: seq<Address>)
    requires i <= |a|
    ensures Minus(a, b) == Minus(a[..i], b) + Minus(a[i..], b)
  {
    MinusSplits(a[..i], a[i..], b);
    assert a[..i] + a[i..] == a;
  }

  /** With the second range used up, the rest of the first is not in it. */
  lemma Behind(a: seq<Address>, i: nat, b: seq<Address>)
    requires Increasing(a) && i <= |a| && (i < |a| ==> forall k :: 0 <= k < |b| ==> b[k] < a[i])
    ensures Minus(a[i..], b) == a[i..]
  {
    forall k | 0 <= k < |a[i..]|
      ensures a[i..][k] !in b
    {
      assert a[i..][k] == a[i + k] && (k > 0 ==> a[i] < a[i + k]);
    }
    MinusNone(a[i..], b);
  }

  // ---------------------------------------------------------------- the object

  class ChangeNotifier {
    var cache: seq<Address>            // m_knownInterfaceCache
    var timers: nat                    // waits outstanding
    ghost var signalled: seq<Address>  // calls of m_onNewInterface

    ghost predicate Valid()
      reads this
    {
      Increasing(cache)
    }

    constructor ()
      ensures Valid() && cache == [] && timers == 0 && signalled == []
    {
      cache, timers, signalled := [], 0, [];
    }

    /** `current` is what getInterfaceAddresses() found. */
    method ResolveInterfaces(current: seq<Address>)
      requires Valid() && Increasing(current)
      modifies this
      ensures Valid() && cache == current && timers == old(timers) + 1
      ensures signalled == old(signalled) + Minus(current, old(cache))
    {
      var newIps := SetDifference(current, cache);
      for i := 0 to |newIps|
        invariant Valid() && cache == old(cache) && timers == old(timers)
        invariant signalled == old(signalled) + newIps[..i]
      {
        assert newIps[..i + 1] == newIps[..i] + [newIps[i]];
        signalled := signalled + [newIps[i]];
      }
      assert newIps[..|newIps|] == newIps;
      cache := current;
      timers := timers + 1;
    }

    /** The timer fires; the handler does not look at its error. */
    method OnTimer(current: seq<Address>)
      requires Valid() && Increasing(current) && timers > 0
      modifies this
      ensures Valid() && cache == current && timers == old(timers)
      ensures signalled == old(signalled) + Minus(current, old(cache))
    {
      timers := timers - 1;
      ResolveInterfaces(current);
    }

    /** launch() and then one timer after another, over any snapshots. */
    method Monitor(snapshots: seq<seq<Address>>)
      requires Valid() && cache == [] && timers == 0 && signalled == []
      requires snapshots != [] && forall k :: 0 <= k < |snapshots| ==> Increasing(snapshots[k])
      modifies this
      ensures Valid() && timers == 1 && cache == snapshots[|snapshots| - 1]
      ensures signalled == Signals(snapshots)
    {
      assert snapshots[..1] == [snapshots[0]];
      ResolveInterfaces(snapshots[0]);
      SignalsSnoc(snapshots, 0);
      for k := 1 to |snapshots|
        invariant Valid() && timers == 1 && cache == snapshots[k - 1]
        invariant signalled == Signals(snapshots[..k])
      {
        OnTimer(snapshots[k]);
        SignalsSnoc(snapshots, k);
      }
      assert snapshots[..|snapshots|] == snapshots;
    }
  }

  // ---------------------------------------------------------------- whole runs

  function Before(snapshots: seq<seq<Address>>, k: nat): seq<Address>
    requires k < |snapshots|
  {
    if k == 0 then [] else snapshots[k - 1]
  }

  /** Everything signalled over a sequence of snapshots. */
  function Signals(snapshots: seq<seq<Address>>): seq<Address> {
    if snapshots == [] then []
    else
      var k := |snapshots| - 1;
      Signals(snapshots[..k]) + Minus(snapshots[k], Before(snapshots, k))
  }

  lemma SignalsSnoc(snapshots: seq<seq<Address>>, k: nat)
    requires k < |snapshots|
    ensures Signals(snapshots[..k + 1]) == Signals(snapshots[..k]) + Minus(snapshots[k], Before(snapshots, k))
  {
    assert snapshots[..k + 1][..k] == snapshots[..k];
  }

  /** Snapshots where `x` is present and was absent just before. */
  function Edges(snapshots: seq<seq<Address>>, x: Address): nat {
    if snapshots == [] then 0
    else
      var k := |snapshots| - 1;
      Edges(snapshots[..k], x) + if x in snapshots[k] && x !in Before(snapshots, k) then 1 else 0
  }

  lemma {:induction false} MinusCount(a: seq<Address>, b: seq<Address>, x: Address)
    requires Increasing(a)
    ensures multiset(Minus(a, b))[x] == if x in a && x !in b then 1 else 0
  {
    if a != [] {
      var rest := a[1..];
      forall i, j | 0 <= i < j < |rest| ensures rest[i] < rest[j] {
        assert rest[i] == a[i + 1] && rest[j] == a[j + 1];
      }
      MinusCount(rest, b, x);
      assert a == [a[0]] + rest;
      assert a[0] !in rest by {
        forall j | 0 <= j < |rest| ensures rest[j] != a[0] { assert rest[j] == a[j + 1]; }
      }
    }
  }

  /** Over any sequence of snapshots an address is signalled once for every snapshot in which it is
      present and was absent just before: on every rising edge, and never otherwise. */
  lemma {:induction false} SignalledOnEdges(snapshots: seq<seq<Address>>, x: Address)
    requires forall k :: 0 <= k < |snapshots| ==> Increasing(snapshots[k])
    ensures multiset(Signals(snapshots))[x] == Edges(snapshots, x)
  {
    if snapshots != [] {
      var k := |snapshots| - 1;
      SignalledOnEdges(snapshots[..k], x);
      MinusCount(snapshots[k], Before(snapshots, k), x);
    }
  }
}
