/** `macro/src/lib.rs`: the `#[func]` attribute macro. `func_impl` rewrites
    an async-bodied function into an `#[ocaml::func]` that creates an Lwt
    promise, spawns the body on the domain executor and returns the promise
    at once. Token trees are modelled by the few shapes of `syn` syntax the
    macro inspects; everything it copies through unchanged is kept as an
    uninterpreted string. */
module Macro {
  import opened Base

  /** `syn::PathArguments`. */
  datatype PathArguments =
    | NoArguments
    | AngleBracketed(args: seq<Ty>)
    | Parenthesized(inputs: seq<Ty>, output: ReturnType)

  /** `syn::PathSegment`. */
  datatype PathSegment = PathSegment(ident: string, arguments: PathArguments)

  /** `syn::Path`: an optional leading `::` and the segments. */
  datatype Path = Path(leadingColon: bool, segments: seq<PathSegment>)

  /** The `syn::Type`s needed here: paths and tuples (`()` is the empty one). */
  datatype Ty = TyPath(path: Path) | TyTuple(elems: seq<Ty>)

  /** `syn::ReturnType`. */
  datatype ReturnType = Default | Type(ty: Ty)

  const AngleUnimplemented := "not implemented: Path equality with angle bracket args is not implemented"
  const ParenUnimplemented := "not implemented: Path equality with parenthesized args is not implemented"

  /** `segments_equal`: differing identifiers are unequal; two segments
      without arguments are equal; two argument lists of the same kind hit
      `unimplemented!`; argument lists of different kinds are unequal. */
  function SegmentsEqual(a: PathSegment, b: PathSegment): (r: Outcome<bool>)
    ensures r == Returned(true) <==> a.ident == b.ident && a.arguments.NoArguments? && b.arguments.NoArguments?
    ensures r.Panicked? <==>
              && a.ident == b.ident
              && ((a.arguments.AngleBracketed? && b.arguments.AngleBracketed?)
                  || (a.arguments.Parenthesized? && b.arguments.Parenthesized?))
    ensures r.Panicked? ==> r.message == (if a.arguments.AngleBracketed? then AngleUnimplemented else ParenUnimplemented)
  {
    if a.ident != b.ident then Returned(false)
    else
      match (a.arguments, b.arguments)
      case (NoArguments, NoArguments) => Returned(true)
      case (AngleBracketed(_), AngleBracketed(_)) => Panicked(AngleUnimplemented)
      case (Parenthesized(_, _), Parenthesized(_, _)) => Panicked(ParenUnimplemented)
      case _ => Returned(false)
  }

  /** `xs.iter().zip(ys.iter()).all(segments_equal)`: the pairs in order up
      to the shorter sequence, stopping at the first unequal pair; a panic
      of `segments_equal` propagates. */
  function AllSegmentsEqual(xs: seq<PathSegment>, ys: seq<PathSegment>): (r: Outcome<bool>)
    ensures xs == [] || ys == [] ==> r == Returned(true)
    ensures r == Returned(false) ==>
              exists i :: 0 <= i < |xs| && i < |ys| && SegmentsEqual(xs[i], ys[i]) == Returned(false)
    ensures r.Panicked? ==> r.message == AngleUnimplemented || r.message == ParenUnimplemented
    decreases |xs|
  {
    if xs == [] || ys == [] then Returned(true)
    else
      match SegmentsEqual(xs[0], ys[0])
      case Panicked(m) => Panicked(m)
      case Returned(same) => if same then AllSegmentsEqual(xs[1..], ys[1..]) else Returned(false)
  }

  /** `paths_equal`. */
  function PathsEqual(p: Path, q: Path): (r: Outcome<bool>)
    ensures p.leadingColon != q.leadingColon ==> r == Returned(false)
    ensures |p.segments| != |q.segments| ==> r == Returned(false)
  {
    if p.leadingColon != q.leadingColon then Returned(false)
    else if |p.segments| != |q.segments| then Returned(false)
    else AllSegmentsEqual(p.segments, q.segments)
  }

  lemma {:induction false} AllSegmentsEqualTrueIff(xs: seq<PathSegment>, ys: seq<PathSegment>)
    requires |xs| == |ys|
    ensures AllSegmentsEqual(xs, ys) == Returned(true) <==>
              forall i :: 0 <= i < |xs| ==> SegmentsEqual(xs[i], ys[i]) == Returned(true)
    decreases |xs|
  {
    if xs != [] {
      AllSegmentsEqualTrueIff(xs[1..], ys[1..]);
      if SegmentsEqual(xs[0], ys[0]) == Returned(true) {
        assert forall i :: 1 <= i < |xs| ==> xs[1..][i - 1] == xs[i] && ys[1..][i - 1] == ys[i];
      }
    }
  }

  /** Two paths are equal exactly when both or neither have a leading `::`,
      they have as many segments, and corresponding segments are equal. */
  lemma PathsEqualTrueIff(p: Path, q: Path)
    ensures PathsEqual(p, q) == Returned(true) <==>
              && p.leadingColon == q.leadingColon
              && |p.segments| == |q.segments|
              && forall i :: 0 <= i < |p.segments| ==> SegmentsEqual(p.segments[i], q.segments[i]) == Returned(true)
  {
    if p.leadingColon == q.leadingColon && |p.segments| == |q.segments| {
      AllSegmentsEqualTrueIff(p.segments, q.segments);
    }
  }

  lemma {:induction false} AllSegmentsEqualSymmetric(xs: seq<PathSegment>, ys: seq<PathSegment>)
    ensures AllSegmentsEqual(xs, ys) == AllSegmentsEqual(ys, xs)
    decreases |xs|
  {
    if xs != [] && ys != [] {
      AllSegmentsEqualSymmetric(xs[1..], ys[1..]);
    }
  }

  /** `paths_equal` does not depend on the order of its arguments, panics
      included. */
  lemma PathsEqualSymmetric(p: Path, q: Path)
    ensures PathsEqual(p, q) == PathsEqual(q, p)
  {
    AllSegmentsEqualSymmetric(p.segments, q.segments);
  }

  /** No segment of `p` carries generic or parenthesised arguments. */
  predicate Plain(p: Path)
  {
    forall i :: 0 <= i < |p.segments| ==> p.segments[i].arguments.NoArguments?
  }

  lemma {:induction false} AllSegmentsEqualPlain(xs: seq<PathSegment>, ys: seq<PathSegment>)
    requires |xs| == |ys|
    requires forall i :: 0 <= i < |xs| ==> xs[i].arguments.NoArguments?
    ensures AllSegmentsEqual(xs, ys) == Returned(xs == ys)
    decreases |xs|
  {
    if xs != [] {
      AllSegmentsEqualPlain(xs[1..], ys[1..]);
      assert xs == [xs[0]] + xs[1..] && ys == [ys[0]] + ys[1..];
    }
  }

  /** Against a path without arguments `paths_equal` never panics and is
      plain structural equality. */
  lemma PathsEqualPlain(p: Path, q: Path)
    requires Plain(p)
    ensures PathsEqual(p, q) == Returned(p == q)
  {
    if p.leadingColon == q.leadingColon && |p.segments| == |q.segments| {
      AllSegmentsEqualPlain(p.segments, q.segments);
    }
  }

  /** `syn::Attribute`: its path and the tokens after it, kept verbatim. */
  datatype Attribute = Attribute(path: Path, tokens: string)

  /** A typed argument `pattern: ty`. */
  datatype FnArg = FnArg(pattern: string, ty: Ty)

  /** `syn::ItemFn`: attributes, visibility, name, arguments, return type and
      the body block, kept verbatim. */
  datatype ItemFn = ItemFn(attrs: seq<Attribute>, public: bool, ident: string, inputs: seq<FnArg>,
                           output: ReturnType, block: string)

  /** The statements of the generated body. `SpawnWithRuntime(block)` is
      the spawned `async move` block: it evaluates `block`, obtains the
      runtime and resolves the resolver with the result. */
  datatype Stmt = NewPromise | SpawnWithRuntime(block: string) | DetachTask | ReturnPromise

  /** The generated item: always a `pub fn`. */
  datatype Expansion = Expansion(attrs: seq<Attribute>, ident: string, inputs: seq<FnArg>,
                                 output: ReturnType, stmts: seq<Stmt>)

  function Segment(ident: string): PathSegment
  {
    PathSegment(ident, NoArguments)
  }

  /** `ocaml::func` */
  const OcamlFuncPath := Path(false, [Segment("ocaml"), Segment("func")])

  /** `#[ocaml::func]` */
  const DefaultOcamlFunc := Attribute(OcamlFuncPath, "")

  /** `()` */
  const Unit := TyTuple([])

  /** `::ocaml_lwt_interop::promise::Promise<t>` */
  function PromiseOf(t: Ty): Ty
  {
    TyPath(Path(true, [Segment("ocaml_lwt_interop"), Segment("promise"), PathSegment("Promise", AngleBracketed([t]))]))
  }

  /** The return type of the generated function: a promise of the original
      return type, `()` when there was none. */
  function WrapReturn(r: ReturnType): (w: ReturnType)
    ensures w.Type?
    ensures w.ty == PromiseOf(if r.Default? then Unit else r.ty)
  {
    match r
    case Default => Type(PromiseOf(Unit))
    case Type(t) => Type(PromiseOf(t))
  }

  /** No return type and `-> ()` give the same promise type, and different
      explicit return types stay different. */
  lemma WrapReturnKeepsType(r: ReturnType, r': ReturnType)
    ensures WrapReturn(Default) == WrapReturn(Type(Unit))
    ensures r.Type? && r'.Type? && r != r' ==> WrapReturn(r) != WrapReturn(r')
  {
    if r.Type? && r'.Type? && WrapReturn(r) == WrapReturn(r') {
      assert PromiseOf(r.ty).path.segments[2].arguments.args[0] == r.ty;
    }
  }

  /** `attrs.into_iter().partition(|attr| paths_equal(&attr.path, &expected_path))`:
      the `ocaml::func` attributes and the others, each in their original
      order. */
  function Partition(attrs: seq<Attribute>): (r: Outcome<(seq<Attribute>, seq<Attribute>)>)
    ensures r.Returned? ==> multiset(r.value.0 + r.value.1) == multiset(attrs)
    ensures r.Returned? ==> forall a :: a in r.value.0 ==> PathsEqual(a.path, OcamlFuncPath) == Returned(true)
    ensures r.Returned? ==> forall a :: a in r.value.1 ==> PathsEqual(a.path, OcamlFuncPath) == Returned(false)
    ensures r.Panicked? ==> exists a :: a in attrs && PathsEqual(a.path, OcamlFuncPath) == Panicked(r.message)
    decreases |attrs|
  {
    if attrs == [] then Returned(([], []))
    else
      assert attrs == [attrs[0]] + attrs[1..];
      match PathsEqual(attrs[0].path, OcamlFuncPath)
      case Panicked(m) => Panicked(m)
      case Returned(isFunc) =>
        match Partition(attrs[1..])
        case Panicked(m) => Panicked(m)
        case Returned(parts) =>
          if isFunc then Returned(([attrs[0]] + parts.0, parts.1))
          else Returned((parts.0, [attrs[0]] + parts.1))
  }

  /** The attributes whose path is (`isFunc`) or is not `ocaml::func`, in order. */
  function Select(attrs: seq<Attribute>, isFunc: bool): (s: seq<Attribute>)
    ensures forall a :: a in s <==> a in attrs && (a.path == OcamlFuncPath) == isFunc
    decreases |attrs|
  {
    if attrs == [] then []
    else
      var rest := Select(attrs[1..], isFunc);
      if (attrs[0].path == OcamlFuncPath) == isFunc then [attrs[0]] + rest else rest
  }

  /** Partitioning never panics and splits the attributes exactly into the
      `ocaml::func` ones and the others, each keeping its order. */
  lemma {:induction false} PartitionSelects(attrs: seq<Attribute>)
    ensures Partition(attrs) == Returned((Select(attrs, true), Select(attrs, false)))
    decreases |attrs|
  {
    if attrs != [] {
      PathsEqualSymmetric(attrs[0].path, OcamlFuncPath);
      PathsEqualPlain(OcamlFuncPath, attrs[0].path);
      PartitionSelects(attrs[1..]);
    }
  }

  /** The body of the generated function: create the promise and its
      resolver, spawn the original block on the runtime, detach the task,
      return the promise. */
  function Body(block: string): seq<Stmt>
  {
    [NewPromise, SpawnWithRuntime(block), DetachTask, ReturnPromise]
  }

  /** `func_impl`. */
  function FuncImpl(f: ItemFn): (r: Outcome<Expansion>)
    ensures r.Returned? ==> multiset(f.attrs) <= multiset(r.value.attrs) && |r.value.attrs| <= |f.attrs| + 1
    ensures r.Returned? ==> r.value.ident == f.ident && r.value.inputs == f.inputs
    ensures r.Returned? ==> r.value.output.Type? && r.value.output.ty.TyPath?
    ensures r.Returned? ==> r.value.stmts == [NewPromise, SpawnWithRuntime(f.block), DetachTask, ReturnPromise]
  {
    match Partition(f.attrs)
    case Panicked(m) => Panicked(m)
    case Returned(parts) =>
      var funcAttrs := if parts.0 != [] then parts.0 else [DefaultOcamlFunc];
      Returned(Expansion(parts.1 + funcAttrs, f.ident, f.inputs, WrapReturn(f.output), Body(f.block)))
  }

  /** What `func_impl` produces for any function: it does not panic; the
      other attributes come first in their order, followed by the existing
      `ocaml::func` attributes verbatim or, when there are none, a default
      `#[ocaml::func]`; name and arguments are kept; the return type is
      wrapped in a promise; the body creates the promise, spawns the
      original block, detaches the task and returns the promise, in that
      order. The visibility of the input is dropped: the result is `pub`
      either way. */
  lemma FuncImplSpec(f: ItemFn)
    ensures FuncImpl(f).Returned?
    ensures var e := FuncImpl(f).value;
            && e.attrs == Select(f.attrs, false)
                          + (if Select(f.attrs, true) == [] then [DefaultOcamlFunc] else Select(f.attrs, true))
            && e.ident == f.ident && e.inputs == f.inputs
            && e.output == WrapReturn(f.output)
            && e.stmts == [NewPromise, SpawnWithRuntime(f.block), DetachTask, ReturnPromise]
    ensures FuncImpl(f.(public := !f.public)) == FuncImpl(f)
  {
    PartitionSelects(f.attrs);
  }

  /** Exactly the attributes with path `ocaml::func` in the expansion are
      the original ones, or the default one alone when there were none. */
  lemma ExpansionHasOcamlFunc(f: ItemFn)
    ensures FuncImpl(f).Returned?
    ensures Select(FuncImpl(f).value.attrs, true) != []
    ensures Select(f.attrs, true) != [] ==> Select(FuncImpl(f).value.attrs, true) == Select(f.attrs, true)
    ensures Select(f.attrs, true) == [] ==> Select(FuncImpl(f).value.attrs, true) == [DefaultOcamlFunc]
  {
    FuncImplSpec(f);
    var others := Select(f.attrs, false);
    var funcs := if Select(f.attrs, true) == [] then [DefaultOcamlFunc] else Select(f.attrs, true);
    SelectAppend(others, funcs, true);
    SelectIdempotent(f.attrs, false, true);
    SelectIdempotent(f.attrs, true, true);
  }

  lemma {:induction false} SelectAppend(xs: seq<Attribute>, ys: seq<Attribute>, isFunc: bool)
    ensures Select(xs + ys, isFunc) == Select(xs, isFunc) + Select(ys, isFunc)
    decreases |xs|
  {
    if xs != [] {
      assert (xs + ys)[1..] == xs[1..] + ys;
      SelectAppend(xs[1..], ys, isFunc);
    } else {
      assert xs + ys == ys;
    }
  }

  /** Selecting from a selection keeps it when the kinds agree and empties
      it otherwise. */
  lemma {:induction false} SelectIdempotent(xs: seq<Attribute>, first: bool, second: bool)
    ensures Select(Select(xs, first), second) == (if first == second then Select(xs, first) else [])
    decreases |xs|
  {
    if xs != [] {
      SelectIdempotent(xs[1..], first, second);
    }
  }

  function Named(ident: string): Ty
  {
    TyPath(Path(false, [Segment(ident)]))
  }

  /** The unit test `test_ocaml_lwt_interop_func`: `-> ()` becomes
      `-> Promise<()>` and the default `#[ocaml::func]` is added. */
  lemma UnitReturnGetsDefaultAttribute(block: string)
    ensures FuncImpl(ItemFn([], true, "lwti_tests_bench", [], Type(Unit), block))
         == Returned(Expansion([DefaultOcamlFunc], "lwti_tests_bench", [], Type(PromiseOf(Unit)), Body(block)))
  {
    var f := ItemFn([], true, "lwti_tests_bench", [], Type(Unit), block);
    FuncImplSpec(f);
    assert FuncImpl(f).value.attrs == [] + [DefaultOcamlFunc] == [DefaultOcamlFunc];
    assert FuncImpl(f).value.stmts == Body(block);
  }

  /** The unit test `test_ocaml_lwt_interop_func_with_existing_ocaml_func`:
      `#[ocaml::func(whatever)]` is kept as it is and no default is added;
      no return type becomes `-> Promise<()>`. */
  lemma ExistingAttributeIsKept()
    ensures FuncImpl(ItemFn([Attribute(OcamlFuncPath, "(whatever)")], true, "lwti_tests_bench", [], Default, "{}"))
         == Returned(Expansion([Attribute(OcamlFuncPath, "(whatever)")], "lwti_tests_bench", [],
                               Type(PromiseOf(Unit)), Body("{}")))
  {
    var attrs := [Attribute(OcamlFuncPath, "(whatever)")];
    FuncImplSpec(ItemFn(attrs, true, "lwti_tests_bench", [], Default, "{}"));
    assert Select(attrs, true) == attrs;
    assert Select(attrs, false) == [];
    assert [] + attrs == attrs;
  }

  /** The unit test `test_ocaml_lwt_interop_func_with_args`: the arguments
      are kept and `-> u64` becomes `-> Promise<u64>`. */
  lemma ArgumentsAreKept()
    ensures FuncImpl(ItemFn([], true, "lwti_tests_bench", TestArgs(), Type(Named("u64")), "{}"))
         == Returned(Expansion([DefaultOcamlFunc], "lwti_tests_bench", TestArgs(), Type(PromiseOf(Named("u64"))), Body("{}")))
  {
    var f := ItemFn([], true, "lwti_tests_bench", TestArgs(), Type(Named("u64")), "{}");
    FuncImplSpec(f);
    assert FuncImpl(f).value.attrs == [] + [DefaultOcamlFunc] == [DefaultOcamlFunc];
  }

  /** `arg1: String, args2: u32` */
  function TestArgs(): seq<FnArg>
  {
    [FnArg("arg1", Named("String")), FnArg("args2", Named("u32"))]
  }
}
