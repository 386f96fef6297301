/** Snapshots of the network interfaces: a std::set of addresses, in iteration order. */
module Interfaces {
  type Address = nat

  ghost predicate Increasing(s: seq<Address>) {
    forall i, j :: 0 <= i < j < |s| ==> s[i] < s[j]
  }
}
