/** Small vocabulary shared by every module. */
module Prelude {
  datatype Option<+T> = None | Some(value: T)

  function Max(a: int, b: int): (r: int)
  {
    if a >= b then a else b
  }

  function Min(a: int, b: int): (r: int)
  {
    if a <= b then a else b
  }

  function Pow2(n: nat): (r: nat)
    ensures r >= 1
  {
    if n == 0 then 1 else 2 * Pow2(n - 1)
  }

  /** A set of ids is empty or has a member. */
  lemma SomeMember(ids: set<int>)
    ensures ids == {} || exists x :: x in ids
  {
    assert (forall x :: x !in ids) ==> ids == {};
  }
}
