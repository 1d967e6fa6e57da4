/** `global_tokio_runtime` (identical in `src/domain_executor.rs` and
    `src/bridged_executor.rs`): a process-wide `Weak` reference to the tokio
    runtime, upgraded while some `Arc` to it is alive and replaced by a newly
    built runtime otherwise. `Arc` ownership is modelled by counting the
    strong references to each runtime ever built. */
module RuntimeCache {
  import opened Base

  /** A built tokio runtime; runtimes are numbered in the order they are built. */
  type RuntimeId = nat

  class WeakRuntimeCache {
    /** The `Weak<Runtime>` behind the mutex; `None` is `Weak::new()`. */
    var weak: Option<RuntimeId>
    /** Live `Arc` count of every runtime built so far. */
    var strong: map<RuntimeId, nat>
    /** The number of runtimes built so far. */
    var built: nat

    ghost predicate Valid()
      reads this
    {
      && (forall r :: r in strong ==> r < built)
      && (weak.Some? ==> weak.value in strong)
    }

    /** `Weak::upgrade`: the cached runtime while it has a strong reference. */
    function Upgrade(): (r: Option<RuntimeId>)
      reads this
      ensures r.Some? <==> weak.Some? && weak.value in strong && strong[weak.value] > 0
      ensures r.Some? ==> r == weak
    {
      if weak.Some? && weak.value in strong && strong[weak.value] > 0 then weak else None
    }

    /** `OnceLock::get_or_init(|| Mutex::new(Weak::new()))`. */
    constructor ()
      ensures Valid() && weak == None && strong == map[] && built == 0
    {
      weak, strong, built := None, map[], 0;
    }

    /** `global_tokio_runtime`: hands out one more reference to the cached
        runtime while it is alive; otherwise builds a new runtime, caches a
        weak reference to it and hands out its only strong reference. Either
        way the cache then upgrades to the runtime returned. */
    method Global() returns (rt: RuntimeId)
      requires Valid()
      modifies this
      ensures Valid()
      ensures Upgrade() == Some(rt)
      ensures old(Upgrade()).Some? ==>
                rt == old(Upgrade()).value && built == old(built) && weak == old(weak)
                && strong == old(strong)[rt := old(strong)[rt] + 1]
      ensures old(Upgrade()).None? ==>
                rt == old(built) && built == old(built) + 1 && weak == Some(rt)
                && strong == old(strong)[rt := 1]
    {
      var upgraded := Upgrade();
      match upgraded
      case Some(cached) =>
        rt := cached;
        strong := strong[rt := strong[rt] + 1];
      case None =>
        rt := built;
        built := built + 1;
        strong := strong[rt := 1];
        weak := Some(rt);
    }

    /** Dropping one `Arc<Runtime>`. */
    method Release(rt: RuntimeId)
      requires Valid() && rt in strong && strong[rt] > 0
      modifies this
      ensures Valid()
      ensures strong == old(strong)[rt := old(strong)[rt] - 1]
      ensures weak == old(weak) && built == old(built)
    {
      strong := strong[rt := strong[rt] - 1];
    }
  }

  /** Two executors created while the first is alive share one runtime; once
      every reference is dropped, the next caller gets a newly built one. */
  method SharedUntilDropped() returns (first: RuntimeId, second: RuntimeId, third: RuntimeId)
    ensures first == second
    ensures third != first
  {
    var cache := new WeakRuntimeCache();
    first := cache.Global();
    second := cache.Global();
    cache.Release(first);
    cache.Release(second);
    third := cache.Global();
  }
}
