/** Stable insertion, the order in which the standard library's stable sort leaves its input. */
module Sorting {

  /** Before the first element greater than x, counting from the end. */
  function Insert<T>(less: (T, T) -> bool, s: seq<T>, x: T): seq<T>
    decreases |s|
  {
    if s == [] || !less(x, s[|s| - 1]) then s + [x]
    else Insert(less, s[..|s| - 1], x) + [s[|s| - 1]]
  }

  /** Where x lands: everything else keeps its place around it. */
  lemma {:induction false} Lands<T>(less: (T, T) -> bool, s: seq<T>, x: T) returns (k: nat)
    ensures k <= |s| && Insert(less, s, x) == s[..k] + [x] + s[k..]
    ensures k > 0 ==> !less(x, s[k - 1])
    ensures k < |s| ==> less(x, s[k])
    decreases |s|
  {
    if s == [] || !less(x, s[|s| - 1]) {
      k := |s|;
    } else {
      var front := s[..|s| - 1];
      k := Lands(less, front, x);
      assert s[k..] == front[k..] + [s[|s| - 1]];
      assert s[..k] == front[..k];
    }
  }
}
