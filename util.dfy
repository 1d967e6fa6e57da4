/** `src/util.rs`: making sure an incoming OCaml value is rooted before it is
    stored beyond the scope it arrived in. */
module Util {
  import opened Ocaml

  /** `ensure_rooted_value`: a raw value gets a fresh root, a rooted value is
      passed through untouched; either way the same OCaml value is meant. */
  function EnsureRootedValue(v: Value): (r: Value)
    ensures r.Root?
    ensures v.Root? ==> r == v
    ensures Denotation(r) == Denotation(v)
  {
    match v
    case Raw(x) => Root(BoxRoot(x))
    case Root(_) => v
  }

  /** Rooting an already-rooted value changes nothing. */
  lemma EnsureRootedValueIdempotent(v: Value)
    ensures EnsureRootedValue(EnsureRootedValue(v)) == EnsureRootedValue(v)
  {
  }
}
