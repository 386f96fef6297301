/** Keyword lookups of an invocation: detail(), kw_argument() and kw_argument_or(). */
module Lookup {
  import opened Values
  import opened Session

  datatype Lookup = Found(val: Value) | Missing | NotAMap

  /** The value under the first entry whose key is this string. */
  function First(kw: seq<Entry>, key: string): (r: Lookup)
    ensures !r.NotAMap?
  {
    if kw == [] then Missing
    else if kw[0].key == Str(key) then Found(kw[0].val)
    else First(kw[1..], key)
  }

  /** The index loop shared by the three accessors. */
  method Scan(map_: Value, key: string) returns (r: Lookup)
    ensures !map_.Dict? ==> r == NotAMap
    ensures map_.Dict? ==> r == First(map_.entries, key)
  {
    if !map_.Dict? {
      return NotAMap;
    }
    var kw := map_.entries;
    var i := 0;
    while i < |kw|
      invariant i <= |kw|
      invariant First(kw, key) == First(kw[i..], key)
    {
      if kw[i].key == Str(key) {
        return Found(kw[i].val);
      }
      i := i + 1;
    }
    assert kw[i..] == [];
    r := Missing;
  }

  /** kw_argument_or(const std::string&, fallback). */
  method KwArgumentOr(map_: Value, key: string, fallback: Value) returns (r: Option<Value>)
    ensures r == if !map_.Dict? then None
                 else match First(map_.entries, key) case Found(v) => Some(v) case _ => Some(fallback)
  {
    var l := Scan(map_, key);
    match l {
      case NotAMap => r := None;
      case Found(v) => r := Some(v);
      case Missing => r := Some(fallback);
    }
  }

  /** What the scan finds is the value of the first matching entry, if there is one. */
  lemma {:induction false} FirstMeans(kw: seq<Entry>, key: string)
    ensures First(kw, key).Missing? <==> forall i :: 0 <= i < |kw| ==> kw[i].key != Str(key)
    ensures First(kw, key).Found? ==>
              exists i :: 0 <= i < |kw| && kw[i] == Entry(Str(key), First(kw, key).val)
                          && forall j :: 0 <= j < i ==> kw[j].key != Str(key)
  {
    if kw != [] && kw[0].key != Str(key) {
      var rest := kw[1..];
      FirstMeans(rest, key);
      assert forall i :: 0 <= i < |rest| ==> rest[i] == kw[i + 1];
      if First(rest, key).Found? {
        var i :| 0 <= i < |rest| && rest[i] == Entry(Str(key), First(rest, key).val)
                 && forall j :: 0 <= j < i ==> rest[j].key != Str(key);
        assert kw[i + 1] == Entry(Str(key), First(kw, key).val);
      }
    }
  }

  /** Every entry is a string under a string key, and no key is there twice. */
  ghost predicate Plain(kw: seq<Entry>) {
    && (forall i :: 0 <= i < |kw| ==> kw[i].key.Str? && Text(kw[i].val).Some?)
    && (forall i, j :: 0 <= i < j < |kw| ==> kw[i].key != kw[j].key)
  }

  /** The conversion to a map, in which the last of several equal keys wins, and the scan, in which
      the first does, read the same text out of plain keyword arguments. */
  lemma {:induction false} ScanReadsWhat(kw: seq<Entry>)
    requires Plain(kw)
    ensures What(kw) == match First(kw, "what") case Found(v) => Some(Text(v)) case _ => Some(None)
  {
    if kw != [] {
      var front, last := kw[..|kw| - 1], kw[|kw| - 1];
      assert forall i :: 0 <= i < |front| ==> front[i] == kw[i];
      ScanReadsWhat(front);
      assert front + [last] == kw;
      FirstSnoc(front, last, "what");
      FirstMeans(front, "what");
      LastOfPlain(kw);
      WhatSnoc(kw, "what", First(front, "what"));
    }
  }

  lemma LastOfPlain(kw: seq<Entry>)
    requires Plain(kw) && kw != []
    ensures forall e :: e in kw[..|kw| - 1] ==> e.key != kw[|kw| - 1].key
  {
  }

  /** One step of the conversion to a map. */
  lemma WhatSnoc(kw: seq<Entry>, key: string, l: Lookup)
    requires kw != [] && key == "what" && kw[|kw| - 1].key.Str? && Text(kw[|kw| - 1].val).Some?
    requires What(kw[..|kw| - 1]) == if l.Found? then Some(Text(l.val)) else Some(None)
    ensures What(kw) == if kw[|kw| - 1].key == Str(key) then Some(Text(kw[|kw| - 1].val))
                        else if l.Found? then Some(Text(l.val)) else Some(None)
  {
  }

  lemma {:induction false} FirstSnoc(kw: seq<Entry>, e: Entry, key: string)
    ensures First(kw + [e], key)
            == if First(kw, key).Missing? && e.key == Str(key) then Found(e.val) else First(kw, key)
  {
    if kw == [] {
      assert [] + [e] == [e] && [e][1..] == [];
    } else {
      FirstSnoc(kw[1..], e, key);
      assert (kw + [e])[1..] == kw[1..] + [e];
    }
  }
}
