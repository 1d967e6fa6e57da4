/** `DomainExecutor` of `src/domain_executor.rs`, and `BridgedExecutor` of
    its predecessor `src/bridged_executor.rs`, which has the same fields
    (`ex`, `bridge`, `rt`) and the same `new`, `enter` and `tick`. */
module DomainExecutor {
  import opened Base
  import opened ExecutorContext
  import RuntimeCache

  /** `DomainExecutorDriver` (`LwtExecutorBridge`): the pinned
      `ex.run(pending())` future and the waker that sends the notification.
      `polls` records, for each poll of that future, the executor context
      current on the thread while it ran. */
  class Driver {
    var polls: seq<Option<Context>>

    constructor ()
      ensures polls == []
    {
      polls := [];
    }

    /** `DomainExecutorDriver::tick`: polls the run future exactly once and
        ignores whether it is ready. */
    method Tick(ambient: Option<Context>)
      modifies this
      ensures polls == old(polls) + [ambient]
    {
      polls := polls + [ambient];
    }
  }

  class DomainExecutor {
    const executor: ExecutorId
    const driver: Driver
    const runtime: RuntimeCache.RuntimeId

    /** `DomainExecutor::new`: the new `async_executor::Executor` (its
        identity is given by the caller), a fresh driver, and a reference to
        the shared tokio runtime from `global_tokio_runtime`. */
    constructor (executor: ExecutorId, cache: RuntimeCache.WeakRuntimeCache)
      requires cache.Valid()
      modifies cache
      ensures this.executor == executor
      ensures fresh(driver) && driver.polls == []
      ensures cache.Valid() && cache.Upgrade() == Some(runtime)
      ensures old(cache.Upgrade()).Some? ==> runtime == old(cache.Upgrade()).value
      ensures old(cache.Upgrade()).None? ==> runtime == old(cache.built) && cache.built == old(cache.built) + 1
    {
      this.executor := executor;
      driver := new Driver();
      var rt := cache.Global();
      runtime := rt;
    }

    /** `enter`: pushes a new context on this executor onto the thread's stack. */
    method Enter(tls: ExecutorStack) returns (g: ExecutorGuard)
      requires tls.Valid()
      modifies tls
      ensures tls.Valid()
      ensures tls.stack == old(tls.stack) + [g.context]
      ensures g.context.executor == executor
      ensures forall i :: 0 <= i < |old(tls.stack)| ==> old(tls.stack)[i].id != g.context.id
      ensures g.context.id == old(tls.nextId) && tls.nextId == old(tls.nextId) + 1
    {
      g := tls.Enter(executor);
    }

    /** `tick`: with a context on this executor entered, polls the driver
        exactly once; dropping the guard then succeeds and leaves the
        thread's stack as it was. */
    method Tick(tls: ExecutorStack)
      requires tls.Valid()
      modifies tls, driver
      ensures tls.Valid()
      ensures tls.stack == old(tls.stack)
      ensures tls.nextId == old(tls.nextId) + 1
      ensures driver.polls == old(driver.polls) + [Some(Context(old(tls.nextId), executor))]
    {
      var selfGuard := Enter(tls);
      driver.Tick(Current(tls.stack));
      var dropped := tls.Drop(selfGuard);
      assert dropped.Returned?;
    }
  }

  /** Two executors ticked in turn on one thread: each poll of a driver runs
      with that driver's own executor as the current context, and the stack
      is empty again between and after the ticks. */
  method TicksOnOneThread(a: ExecutorId, b: ExecutorId)
    returns (pollsA: seq<Option<Context>>, pollsB: seq<Option<Context>>, after: seq<Context>)
    ensures |pollsA| == 1 && pollsA[0].Some? && pollsA[0].value.executor == a
    ensures |pollsB| == 1 && pollsB[0].Some? && pollsB[0].value.executor == b
    ensures pollsA[0].value.id != pollsB[0].value.id
    ensures after == []
  {
    var cache := new RuntimeCache.WeakRuntimeCache();
    var tls := new ExecutorStack();
    var exA := new DomainExecutor(a, cache);
    var exB := new DomainExecutor(b, cache);
    exA.Tick(tls);
    exB.Tick(tls);
    pollsA, pollsB, after := exA.driver.polls, exB.driver.polls, tls.stack;
  }
}
