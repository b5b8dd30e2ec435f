/** Optional values, and the two ends of a sequence that is taken apart from the right. */
module Basics {
  datatype Option<T> = None | Some(value: T)

  function Front<T>(s: seq<T>): seq<T>
    requires |s| > 0
  {
    s[..|s|-1]
  }

  function Last<T>(s: seq<T>): T
    requires |s| > 0
  {
    s[|s|-1]
  }

  /** Places below n, one after the other. */
  ghost predicate PlacesBelow(at: seq<nat>, n: nat) {
    (forall j :: 0 <= j < |at| ==> at[j] < n) && forall j, k :: 0 <= j < k < |at| ==> at[j] < at[k]
  }

  lemma OnePlaceMore(at: seq<nat>, n: nat)
    requires PlacesBelow(at, n)
    ensures PlacesBelow(at, n + 1) && PlacesBelow(at + [n], n + 1) && n !in at
    ensures forall i: nat :: i in at + [n] <==> i in at || i == n
  {}
}
