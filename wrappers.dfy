/** Small helper datatypes shared by the other modules. */
module Wrappers {

  /** An optional value: stands for a component reference that may be null. */
  datatype Option<+T> = None | Some(value: T)

  /** The smaller of two reals (`Mathf.Min` on exact reals). */
  function MinReal(a: real, b: real): (r: real)
    ensures r <= a && r <= b
    ensures r == a || r == b
  {
    if a <= b then a else b
  }

  /** The smaller of two integers (`Math.Min`). */
  function MinInt(a: int, b: int): (r: int)
    ensures r <= a && r <= b
    ensures r == a || r == b
  {
    if a <= b then a else b
  }

  /** The larger of two integers (`Math.Max`). */
  function MaxInt(a: int, b: int): (r: int)
    ensures r >= a && r >= b
    ensures r == a || r == b
  {
    if a >= b then a else b
  }

  /** A sequence in which no element occurs twice. */
  ghost predicate Distinct<T>(s: seq<T>)
  {
    forall i, j :: 0 <= i < j < |s| ==> s[i] != s[j]
  }
}
