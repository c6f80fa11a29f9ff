/** Small helpers shared by the models: an optional value, a result, bytes, and a counting lemma. */
module Collections {

  datatype Option<+T> = None | Some(value: T)

  datatype Result<+T> = Ok(value: T) | Err(message: string)

  type byte = x: int | 0 <= x < 256

  type bytes = seq<byte>

  /** The optional value a map holds at a key. */
  function Lookup<K, V>(m: map<K, V>, k: K): Option<V> {
    if k in m then Some(m[k]) else None
  }

  /** A listing of a set: every element, each once. */
  ghost predicate Enumerates<T(!new)>(xs: seq<T>, s: set<T>) {
    && (forall x :: x in xs <==> x in s)
    && (forall i, j :: 0 <= i < j < |xs| ==> xs[i] != xs[j])
  }

  /** A set that a function maps one-to-one onto another has the same size. */
  lemma {:induction false} ImageSize<A(!new), B>(xs: set<A>, ys: set<B>, f: A -> B)
    requires forall x, x' :: x in xs && x' in xs && f(x) == f(x') ==> x == x'
    requires forall x :: x in xs ==> f(x) in ys
    requires forall y :: y in ys ==> exists x :: x in xs && f(x) == y
    ensures |xs| == |ys|
    decreases xs
  {
    if xs != {} {
      var x :| x in xs;
      ImageSize(xs - {x}, ys - {f(x)}, f);
    } else {
      assert ys == {};
    }
  }
}
