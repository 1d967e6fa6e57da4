/** The thread-local `EXECUTOR_STACK` of `src/domain_executor.rs` and of its
    predecessor `src/bridged_executor.rs`; the two files implement it, the
    guard and the ambient accessors identically. Contexts are `Rc`s compared
    with `Rc::ptr_eq`: `id` stands for the allocation, handed out fresh by
    `ExecutorStack.nextId` at every `enter`. */
module ExecutorContext {
  import opened Base

  /** An `Arc<Executor>`, identified by the executor it points at. */
  type ExecutorId = nat

  /** `Rc<DomainExecutorContext>` (`Rc<ExecutorContext>` in the bridged
      variant): `id` is its allocation, `executor` the executor it clones. */
  datatype Context = Context(id: nat, executor: ExecutorId)

  /** `ExecutorGuard`: the context its `enter` pushed. */
  datatype ExecutorGuard = ExecutorGuard(context: Context)

  /** The failed `assert!` in `ExecutorGuard::drop`: the common prefix of
      its message, which goes on with the asserted condition as written in
      each of the two executors. */
  const GuardAssertion := "assertion failed"

  const NoContext := "There is no ocaml-lwt-interop executor context registered for current thread!"

  const OutsideContext :=
    "Can't obtain OCaml runtime handle when running outside of ocaml-lwt-interop executor context!"

  /** `Handle { ctx }`: a clone of the current context, keeping its executor. */
  datatype Handle = Handle(executor: ExecutorId)

  /** The check `ExecutorGuard::drop` makes: there is a top, and it is the
      guard's own context by identity. */
  predicate TopIs(s: seq<Context>, c: Context)
  {
    |s| > 0 && s[|s| - 1].id == c.id
  }

  /** `ExecutorGuard::drop` on a stack: pops the guard's context when it is on
      top, and fails the assertion (leaving the stack alone) otherwise. */
  function DropStep(s: seq<Context>, g: ExecutorGuard): (r: Outcome<seq<Context>>)
    ensures r.Returned? <==> TopIs(s, g.context)
    ensures r.Returned? ==> r.value + [s[|s| - 1]] == s
    ensures r.Panicked? ==> r.message == GuardAssertion
  {
    if TopIs(s, g.context) then Returned(s[..|s| - 1]) else Panicked(GuardAssertion)
  }

  /** Drops the guards `gs` in order, `gs[0]` first. */
  function DropAll(s: seq<Context>, gs: seq<ExecutorGuard>): Outcome<seq<Context>>
    decreases |gs|
  {
    if gs == [] then Returned(s)
    else
      match DropStep(s, gs[0])
      case Panicked(m) => Panicked(m)
      case Returned(s') => DropAll(s', gs[1..])
  }

  /** The guards of the contexts `cs`, innermost (last pushed) first: the
      order in which Rust drops nested guards. */
  function LifoGuards(cs: seq<Context>): (gs: seq<ExecutorGuard>)
    ensures |gs| == |cs|
    ensures forall i :: 0 <= i < |cs| ==> gs[i] == ExecutorGuard(cs[|cs| - 1 - i])
  {
    if cs == [] then [] else [ExecutorGuard(cs[|cs| - 1])] + LifoGuards(cs[..|cs| - 1])
  }

  /** Any number of nested `enter`s on top of any stack, followed by the
      drops of their guards in reverse order, give back the original stack
      and never fail the assertion. */
  lemma {:induction false} NestedEnterExit(s: seq<Context>, cs: seq<Context>)
    ensures DropAll(s + cs, LifoGuards(cs)) == Returned(s)
    decreases |cs|
  {
    if cs != [] {
      var last := cs[|cs| - 1];
      var rest := cs[..|cs| - 1];
      var gs := LifoGuards(cs);
      assert gs[0] == ExecutorGuard(last);
      assert gs[1..] == LifoGuards(rest);
      assert (s + cs)[..|s + cs| - 1] == s + rest;
      assert DropStep(s + cs, gs[0]) == Returned(s + rest);
      assert DropAll(s + cs, gs) == DropAll(s + rest, LifoGuards(rest));
      NestedEnterExit(s, rest);
    } else {
      assert s + cs == s;
    }
  }

  /** Dropping the outer of two nested guards first fails the assertion,
      whatever lies below them. */
  lemma OutOfOrderDropFails(s: seq<Context>, outer: Context, inner: Context)
    requires outer.id != inner.id
    ensures DropAll(s + [outer, inner], [ExecutorGuard(outer), ExecutorGuard(inner)]) == Panicked(GuardAssertion)
  {
  }

  /** `DomainExecutor::current`: the top of the stack, if any. */
  function Current(s: seq<Context>): (c: Option<Context>)
    ensures c.None? <==> s == []
    ensures c.Some? ==> c.value == s[|s| - 1]
  {
    if s == [] then None else Some(s[|s| - 1])
  }

  /** The free `spawn`: the executor of the current context receives the
      future; without a context it panics. */
  function Spawn(s: seq<Context>): (r: Outcome<ExecutorId>)
    ensures r.Panicked? <==> s == []
    ensures r.Panicked? ==> r.message == NoContext
    ensures r.Returned? ==> r.value == s[|s| - 1].executor
  {
    match Current(s)
    case None => Panicked(NoContext)
    case Some(ctx) => Returned(ctx.executor)
  }

  /** `handle`: a handle on the current context's executor. */
  function GetHandle(s: seq<Context>): (r: Outcome<Handle>)
    ensures r.Panicked? <==> s == []
    ensures r.Panicked? ==> r.message == NoContext
    ensures r.Returned? ==> r.value.executor == s[|s| - 1].executor
  {
    match Current(s)
    case None => Panicked(NoContext)
    case Some(ctx) => Returned(Handle(ctx.executor))
  }

  /** `ocaml_runtime`: allowed only inside an executor context. */
  function OcamlRuntime(s: seq<Context>): (r: Outcome<()>)
    ensures r.Panicked? <==> s == []
    ensures r.Panicked? ==> r.message == OutsideContext
  {
    match Current(s)
    case None => Panicked(OutsideContext)
    case Some(_) => Returned(())
  }

  /** A handle spawns onto the executor `spawn` would have used, and the
      accessors agree on when a context exists. */
  lemma AccessorsAgree(s: seq<Context>)
    ensures Spawn(s).Returned? <==> GetHandle(s).Returned?
    ensures GetHandle(s).Returned? <==> OcamlRuntime(s).Returned?
    ensures Spawn(s).Returned? ==> GetHandle(s).value.executor == Spawn(s).value
  {
  }

  /** The calling thread's `EXECUTOR_STACK`. */
  class ExecutorStack {
    var stack: seq<Context>
    /** The next `Rc` allocation; every context ever pushed has a smaller id. */
    var nextId: nat

    /** Contexts sit on the stack in allocation order, so their ids are
        distinct and all allocated. */
    ghost predicate Valid()
      reads this
    {
      && (forall i :: 0 <= i < |stack| ==> stack[i].id < nextId)
      && (forall i, j :: 0 <= i < j < |stack| ==> stack[i].id < stack[j].id)
    }

    /** The empty `Vec` of the `thread_local!` initialiser. */
    constructor ()
      ensures Valid() && stack == []
    {
      stack := [];
      nextId := 0;
    }

    /** `enter`: pushes a fresh context for `executor` and returns its guard;
        the rest of the stack is untouched. */
    method Enter(executor: ExecutorId) returns (g: ExecutorGuard)
      requires Valid()
      modifies this
      ensures Valid()
      ensures stack == old(stack) + [g.context]
      ensures g.context == Context(old(nextId), executor)
      ensures nextId == old(nextId) + 1
      ensures forall i :: 0 <= i < |old(stack)| ==> old(stack)[i].id != g.context.id
    {
      g := ExecutorGuard(Context(nextId, executor));
      stack := stack + [g.context];
      nextId := nextId + 1;
    }

    /** `ExecutorGuard::drop`. */
    method Drop(g: ExecutorGuard) returns (o: Outcome<()>)
      requires Valid()
      modifies this
      ensures Valid() && nextId == old(nextId)
      ensures DropStep(old(stack), g).Returned? ==> o == Returned(()) && stack == DropStep(old(stack), g).value
      ensures DropStep(old(stack), g).Panicked? ==> o == Panicked(GuardAssertion) && stack == old(stack)
    {
      if |stack| > 0 && stack[|stack| - 1].id == g.context.id {
        stack := stack[..|stack| - 1];
        o := Returned(());
      } else {
        o := Panicked(GuardAssertion);
      }
    }
  }
}
