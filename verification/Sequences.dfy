/** Sequences as logs and runs: all but the last element, merges of two sources, and joined texts. */
module Sequences {
  function Front<T>(xs: seq<T>): seq<T>
    requires xs != []
  {
    xs[..|xs| - 1]
  }

  function Last<T>(xs: seq<T>): T
    requires xs != []
  {
    xs[|xs| - 1]
  }

  /** The elements of a merge that came from one of its two sources. */
  function Picked<T>(merged: seq<T>, from: seq<bool>, which: bool): seq<T>
    requires |merged| == |from|
  {
    if merged == [] then []
    else Picked(Front(merged), Front(from), which) + if Last(from) == which then [Last(merged)] else []
  }

  lemma {:induction false} PickedSnoc<T>(merged: seq<T>, from: seq<bool>, x: T, b: bool, which: bool)
    requires |merged| == |from|
    ensures Picked(merged + [x], from + [b], which) == Picked(merged, from, which) + if b == which then [x] else []
  {
    assert Front(merged + [x]) == merged && Front(from + [b]) == from;
  }

  function Join(parts: seq<string>, separator: string): string {
    if parts == [] then ""
    else if |parts| == 1 then parts[0]
    else parts[0] + separator + Join(parts[1..], separator)
  }

  lemma {:induction false} JoinSnoc(parts: seq<string>, part: string, separator: string)
    ensures Join(parts + [part], separator) == if parts == [] then part else Join(parts, separator) + separator + part
  {
    if |parts| > 1 {
      assert (parts + [part])[1..] == parts[1..] + [part];
      JoinSnoc(parts[1..], part, separator);
    } else if |parts| == 1 {
      assert (parts + [part])[1..] == [part];
    }
  }
}
