/** The two shapes of `ocaml::Value`. A raw value is a word the OCaml GC may
    move or collect once the current scope ends; a rooted value is held
    through a GC root (a boxroot) and stays valid. */
module Ocaml {

  /** An OCaml value word. */
  type RawValue = nat

  /** `ocaml::root::Root`: a GC root registered for `target`. */
  datatype BoxRoot = BoxRoot(target: RawValue)

  /** `ocaml::Value` */
  datatype Value = Raw(raw: RawValue) | Root(root: BoxRoot)

  /** The OCaml value a `Value` stands for, whichever way it is held. */
  function Denotation(v: Value): RawValue
  {
    match v
    case Raw(x) => x
    case Root(r) => r.target
  }
}
