/** The lookup behind `tryFrom` on a backed enumeration, shared by every enumeration of the core. */
module BackedEnum {

  import opened Wrappers

  /** The first of `cases` whose backing value is `v`, or None when no case is backed by it. */
  function FirstBacked<E, V(==)>(cases: seq<E>, backing: E -> V, v: V): (r: Option<E>)
    ensures r.Some? ==> r.value in cases && backing(r.value) == v
    ensures r.None? <==> forall i :: 0 <= i < |cases| ==> backing(cases[i]) != v
  {
    if cases == [] then None
    else if backing(cases[0]) == v then Some(cases[0])
    else FirstBacked(cases[1..], backing, v)
  }
}
