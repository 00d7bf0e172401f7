/** Sums and maps over sequences, shared by the command, the model and the
    views. */
module Secuencias {

  /** `sum(a)`, added up from the left. */
  function Suma(a: seq<int>): int {
    if a == [] then 0 else Suma(a[..|a| - 1]) + a[|a| - 1]
  }

  /** `[f(x) for x in s]`, and a column-wise assignment over a frame. */
  function Aplicar<T, U>(f: T -> U, s: seq<T>): (r: seq<U>)
    ensures |r| == |s| && forall i :: 0 <= i < |s| ==> r[i] == f(s[i])
  {
    seq(|s|, k requires 0 <= k < |s| => f(s[k]))
  }

  /** Mapping over one more element appends its image. */
  lemma AplicarUltimo<T, U>(f: T -> U, s: seq<T>, i: int)
    requires 0 <= i < |s|
    ensures Aplicar(f, s[..i + 1]) == Aplicar(f, s[..i]) + [f(s[i])]
  {
    assert s[..i + 1][..i] == s[..i];
  }
}
