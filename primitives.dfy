/** Value types shared by the models: optional and fallible results, the
    fixed-width unsigned integers of the runtime, and lookup in a
    declaration table by a key that the table declares at most once. */
module Primitives {

  datatype Option<T> = None | Some(value: T)

  datatype Result<T, E> = Ok(value: T) | Err(error: E)

  type U8 = x: int | 0 <= x < 0x100
  type U32 = x: int | 0 <= x < 0x1_0000_0000
  type U64 = x: int | 0 <= x < 0x1_0000_0000_0000_0000
  type U128 = x: int | 0 <= x < 0x1_0000_0000_0000_0000_0000_0000_0000_0000

  /** No two entries of `xs` share a key under `f`. */
  predicate DistinctBy<T, K(==)>(xs: seq<T>, f: T -> K) {
    forall i, j :: 0 <= i < j < |xs| ==> f(xs[i]) != f(xs[j])
  }

  /** An entry of `xs` whose key under `f` is `k`, if there is one. */
  function FindBy<T(==), K(==)>(xs: seq<T>, f: T -> K, k: K): (r: Option<T>)
    ensures r.Some? ==> r.value in xs && f(r.value) == k
    ensures r.None? <==> forall x :: x in xs ==> f(x) != k
  {
    if |xs| == 0 then None
    else if f(xs[0]) == k then Some(xs[0])
    else FindBy(xs[1..], f, k)
  }

  /** In a table whose keys are distinct, looking up the key of an entry
      finds that very entry. */
  lemma {:induction false} FindByDistinct<T, K>(xs: seq<T>, f: T -> K, x: T)
    requires DistinctBy(xs, f)
    requires x in xs
    ensures FindBy(xs, f, f(x)) == Some(x)
  {
    if xs[0] != x {
      var m :| 0 <= m < |xs| && xs[m] == x;
      assert f(xs[0]) != f(xs[m]);
      assert x in xs[1..];
      assert DistinctBy(xs[1..], f) by {
        forall i, j | 0 <= i < j < |xs[1..]|
          ensures f(xs[1..][i]) != f(xs[1..][j])
        {
          assert xs[1..][i] == xs[i + 1] && xs[1..][j] == xs[j + 1];
        }
      }
      FindByDistinct(xs[1..], f, x);
    }
  }
}
