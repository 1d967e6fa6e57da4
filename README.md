# ocaml-lwt-interop, modelled in Dafny

ocaml-lwt-interop lets Rust `async` code and OCaml Lwt promises await each
other. This project models the sequential core under the FFI plumbing and
proves what the code promises about it:

- **`MlBoxFuture`** (`src/ml_box_future.rs`, and an older copy in
  `src/ml_box.rs`). This is the one-shot future that OCaml resolves or
  rejects and Rust polls. Both copies are classes over a shared
  `{value, waker, completed}` state. Clones are aliases of one state
  object, and the mutex is taken as sequential access. Both classes are
  proved against the step functions of module `SharedFuture`. Over any
  sequence of polls and resolutions, `SharedFuture.OneShot` shows:
  - at most one resolution succeeds;
  - at most one poll returns `Ready`, carrying exactly the resolved value;
  - at most one waker is woken.
- **`MlBox`** and **`ensure_rooted_value`** (`src/ml_box.rs`,
  `src/util.rs`). These are pure case splits between raw and rooted OCaml
  values.
- **`Promise`, `Resolver` and `PromiseFuture`** (`src/promise.rs`):
  - `Resolver` and `Promise` are single-use.
  - `PromiseFuture` goes through the states
    `NotStarted → Running → Completed`. It takes the promise on its first
    poll and panics when polled after completion.
  - `PromiseFuture.Poll` keeps the source's `loop` and is proved against
    the specification function `PollSpec`.
  - `ReadyOnlyOnce`: over any sequence of polls, `Ready` is returned at
    most once.
  - The `ocaml_desc` wrapper and its inverse are proved to round-trip.
- **The executor-context stack** (`src/domain_executor.rs`, and its
  predecessor `src/bridged_executor.rs`, which behaves the same):
  - `enter` pushes a fresh context onto the thread-local `EXECUTOR_STACK`.
    A guard's drop asserts, by identity, that its context is on top.
  - The ambient accessors panic outside a context.
  - `tick` brackets exactly one driver poll and leaves the stack as it was.
  - Nested enters followed by drops in reverse order restore any stack.
  - The weak-cached tokio runtime is module `RuntimeCache`.
- **`LocalExecutor`** (`src/local_executor.rs`):
  - a FIFO run queue;
  - a slab of active task wakers, with its free list;
  - a notifier that each task captures when it is spawned.

  `spawn`, `schedule`, `try_tick`, the `CallOnDrop` guard and `Drop` are
  methods on that state.
- **`caml_runtime`** (`src/caml_runtime.rs`):
  - Thread registration aborts unless the foreign call returns exactly 1.
  - `with_released_lock` and `with_acquired_lock` bracket `f` with one
    release and one acquire. They restore the lock state whether `f`
    returns or panics.
- **The `#[func]` macro** (`macro/src/lib.rs`):
  - structural path equality, including its `unimplemented!` panics;
  - `func_impl`'s return-type wrapping, attribute partition and default
    `#[ocaml::func]`;
  - the three unit tests as lemmas.

How the model represents the source:

- A Rust panic is a returned `Outcome.Panicked(message)`. The state is left
  as it was when the panic happened.
- A call into OCaml is a parameter of type `Ffi`: either the answer or the
  exception it raised.
- A move of `self` is a `consumed` flag that the caller must find unset.
- `Rc` identity is a fresh number handed out at each `enter`.
- A `BoxRoot` is identified by the OCaml value it roots. Two roots of the
  same value are equal in the model, while the source registers a new GC
  root for each. `MlBox.IntoValueNew` depends on this; see its line
  under "Left out".

## Model

| member | source | states |
|---|---|---|
| Util.EnsureRootedValue | src/util.rs:5-10 | the result is always rooted; a rooted input comes back unchanged; a raw one gets a root for the same OCaml value |
| Util.EnsureRootedValueIdempotent | src/util.rs:5-10 | applying `ensure_rooted_value` twice equals applying it once |
| MlBox.New | src/ml_box.rs:14-19 | a rooted value keeps its root; either way the box holds the value that was passed |
| MlBox.IntoValue | src/ml_box.rs:21-23 | the result is `Value::Root` of the held root |
| MlBox.NewIntoValue | src/ml_box.rs:14-23 | boxing the value a box gives back yields the same box |
| MlBox.IntoValueNew | src/ml_box.rs:14-23 | boxing then unboxing a value is `ensure_rooted_value` |
| MlBox.MlBoxFutureSharedState.constructor | src/ml_box.rs:57-64 | a new shared state has no value, no waker and is not completed |
| MlBox.MlBoxFuture.constructor | src/ml_box.rs:57-64 | a new future refers to a fresh state with no value, no waker, not completed |
| MlBox.MlBoxFuture.Poll | src/ml_box.rs:44-53 | a present value is returned as `Ready` and the slot is emptied; otherwise the caller's waker replaces the stored one and the result is `Pending`; `completed` is unchanged |
| MlBox.MlBoxFuture.SetValue | src/ml_box.rs:66-76 | panics "Attempt to resolve an already resolved promise" and changes nothing on a completed state; otherwise sets `completed` and the value, clears the waker and wakes the stored waker exactly once (none if none was stored) |
| MlBox.MlBoxFuture.Resolve | src/ml_box.rs:78-80 | `set_value(Ok(v))`: on a completed state panics and changes nothing, waking nobody; otherwise stores `Ok(v)` and wakes the stored waker exactly once |
| MlBox.MlBoxFuture.Reject | src/ml_box.rs:82-84 | `set_value(Err(LwtPromiseRejection(msg)))` with `msg` unchanged: on a completed state panics and changes nothing, waking nobody; otherwise stores the rejection and wakes the stored waker exactly once |
| MlBoxFuture.MlBoxFutureSharedState.constructor | src/ml_box_future.rs:94-100 | a new shared state has no value, no waker and is not completed |
| MlBoxFuture.MlBoxFuture.constructor | src/ml_box_future.rs:94-101 | a new future refers to a fresh state with no value, no waker, not completed |
| MlBoxFuture.MlBoxFuture.Clone | src/ml_box_future.rs:62-66 | a clone shares the original's state object |
| MlBoxFuture.MlBoxFuture.Poll | src/ml_box_future.rs:75-86 | a present value is returned as `Ready` and the slot is emptied; otherwise the caller's waker replaces the stored one and the result is `Pending`; `completed` is unchanged |
| MlBoxFuture.MlBoxFuture.SetValue | src/ml_box_future.rs:110-121 | panics on a completed state and changes nothing; otherwise sets `completed` and stores exactly the given result, takes the stored waker and wakes it once |
| MlBoxFuture.MlBoxFuture.Resolve | src/ml_box_future.rs:126-128 | `set_value(Ok(v))` |
| MlBoxFuture.MlBoxFuture.Reject | src/ml_box_future.rs:133-135 | `set_value(Err(LwtPromiseRejection(msg)))` with `msg` unchanged |
| MlBoxFuture.ResolveThroughClone | src/ml_box_future.rs:62-66 | a resolve through one clone wakes the waker left by a pending poll through the other, whose next poll gets the value; a second resolution panics |
| SharedFuture.StepKeepsConsistent | src/ml_box_future.rs:75-121 | each poll or set_value keeps the state consistent with everything observed so far |
| SharedFuture.OneShot | src/ml_box_future.rs:110-121 | from a new future, over any events: at most one resolution succeeds, at most one `Ready` (holding that resolution's value) and at most one wake |
| SharedFuture.CompletedIsFinal | src/ml_box_future.rs:112-115 | nothing resets `completed`; every further set_value panics |
| SharedFuture.PendingPollIsWokenByResolve | src/ml_box_future.rs:79-84 | the waker stored by a pending poll is the one resolution wakes, and the next poll is `Ready` with the value |
| ExecutorContext.DropStep | src/domain_executor.rs:95-104 | the guard's drop succeeds iff the top of the stack is its own context (by identity) and then pops exactly it; otherwise the assertion fails; the same in src/bridged_executor.rs:152-162 |
| ExecutorContext.NestedEnterExit | src/domain_executor.rs:140-146 | any number of nested enters on any stack, followed by guard drops innermost first, never fail and restore the stack |
| ExecutorContext.OutOfOrderDropFails | src/domain_executor.rs:95-104 | dropping the outer of two nested guards first fails the assertion |
| ExecutorContext.Current | src/domain_executor.rs:148-150 | `None` iff the stack is empty, else its top; the same in src/bridged_executor.rs:200-202 |
| ExecutorContext.Spawn | src/domain_executor.rs:153-161 | panics with "There is no ocaml-lwt-interop executor context registered for current thread!" iff the stack is empty; otherwise spawns on the top context's executor; the same in src/bridged_executor.rs:205-213 |
| ExecutorContext.GetHandle | src/domain_executor.rs:221-226 | panics with the no-context message iff the stack is empty; otherwise a handle on the top context's executor; the same in src/bridged_executor.rs:273-278 |
| ExecutorContext.OcamlRuntime | src/domain_executor.rs:180-190 | panics with the "outside of ocaml-lwt-interop executor context" message iff the stack is empty; the same in src/bridged_executor.rs:232-242 |
| ExecutorContext.AccessorsAgree | src/domain_executor.rs:153-226 | `spawn`, `handle` and `ocaml_runtime` fail on the same stacks, and a handle spawns where `spawn` would |
| ExecutorContext.ExecutorStack.constructor | src/domain_executor.rs:87-89 | the thread-local stack starts empty |
| ExecutorContext.ExecutorStack.Enter | src/domain_executor.rs:140-146 | pushes one fresh context, distinct from all below it, on top; the rest is unchanged; the same in src/bridged_executor.rs:192-198 |
| ExecutorContext.ExecutorStack.Drop | src/domain_executor.rs:95-104 | pops the guard's context when on top; fails the assertion and leaves the stack otherwise; the same in src/bridged_executor.rs:152-162 |
| RuntimeCache.WeakRuntimeCache.Upgrade | src/domain_executor.rs:28 | the cached runtime iff it still has a strong reference |
| RuntimeCache.WeakRuntimeCache.constructor | src/domain_executor.rs:26-27 | the cache starts as an empty `Weak` |
| RuntimeCache.WeakRuntimeCache.Global | src/domain_executor.rs:25-47 | a live cached runtime is returned with one more reference; otherwise a new runtime is built, cached weakly and returned with its only reference; afterwards the cache upgrades to the result; the same in src/bridged_executor.rs:72-105 |
| RuntimeCache.SharedUntilDropped | src/domain_executor.rs:25-47 | executors created while the runtime lives share it; after every reference is dropped a new one is built |
| DomainExecutor.Driver.Tick | src/domain_executor.rs:70-73 | polls the run future exactly once; the same in src/bridged_executor.rs:127-130 |
| DomainExecutor.DomainExecutor.constructor | src/domain_executor.rs:114-124 | takes the executor the caller names (the identity of the new `async_executor::Executor` is a parameter), builds a fresh driver that has not polled, and holds the runtime `global_tokio_runtime` hands out: the live one when there is one, otherwise a newly built one; the same in src/bridged_executor.rs:171-176 |
| DomainExecutor.DomainExecutor.Enter | src/domain_executor.rs:140-146 | pushes a fresh context on this executor |
| DomainExecutor.DomainExecutor.Tick | src/domain_executor.rs:126-131 | exactly one driver poll, run with a fresh context on this executor current; the stack afterwards equals the stack before; the same in src/bridged_executor.rs:178-183 |
| DomainExecutor.TicksOnOneThread | src/domain_executor.rs:126-131 | two executors ticked on one thread each see their own executor current, and the stack ends empty |
| CamlRuntime.RegisterThread | src/caml_runtime.rs:112-117 | continues iff the foreign call returned exactly 1; otherwise aborts after "caml_c_thread_register() failed!"; the same in src/bridged_executor.rs:86-91 |
| CamlRuntime.UnregisterThread | src/caml_runtime.rs:121-126 | continues iff the foreign call returned exactly 1; otherwise aborts after "caml_c_thread_unregister() failed!"; the same in src/bridged_executor.rs:92-97 |
| CamlRuntime.CThreadRegister | src/caml_runtime.rs:86-91 | returns 0 or 1; 1 iff the thread was not registered and the runtime did not fail the call; on 1 the thread is registered afterwards, on 0 the registered set is unchanged |
| CamlRuntime.CThreadUnregister | src/caml_runtime.rs:93-99 | returns 0 or 1; 1 iff the thread was registered and the runtime did not fail the call; on 1 the thread is no longer registered, on 0 the registered set is unchanged |
| CamlRuntime.WorkerLifecycle | src/domain_executor.rs:39-40 | a worker on an unregistered thread passes the start hook iff registration does not fail, and aborts otherwise; once started, it passes the stop hook iff unregistration does not fail; when neither fails the registered set ends as it was |
| CamlRuntime.MisuseAborts | src/caml_runtime.rs:86-99 | registering twice, or unregistering a thread never registered, aborts whether or not the runtime fails otherwise |
| CamlRuntime.BracketRestores | src/caml_runtime.rs:130-157 | release/run/acquire (and acquire/run/release) on a disciplined trace keep it disciplined and restore the lock state |
| CamlRuntime.DomainLock.WithReleasedLock | src/caml_runtime.rs:130-141 | exactly one release, then `f` without the lock, then one acquire; the lock is held on exit; `f`'s value or panic is passed on unchanged |
| CamlRuntime.DomainLock.WithAcquiredLock | src/caml_runtime.rs:145-157 | exactly one acquire, then `f` with the lock, then one release; the lock is released on exit; `f`'s value or panic is passed on unchanged |
| LocalExecutor.Vacant | src/local_executor.rs:91 | the vacant key is not occupied |
| LocalExecutor.Insert | src/local_executor.rs:113 | stores the waker at the vacant key and keeps the slab well formed |
| LocalExecutor.TryRemove | src/local_executor.rs:94 | frees the key if occupied, does nothing otherwise, and keeps the slab well formed |
| LocalExecutor.RemoveThenVacantReuses | src/local_executor.rs:91-94 | the key just freed is the next one handed out |
| LocalExecutor.InsertionsAreDense | src/local_executor.rs:91-113 | without removals the keys are exactly 0, 1, ..., n-1 |
| LocalExecutor.LocalExecutor.constructor | src/local_executor.rs:168-174 | empty queue, no notifier, no active tasks |
| LocalExecutor.LocalExecutor.SetNotifier | src/local_executor.rs:175-178 | replaces the notifier; queue, tasks and the notifiers tasks captured are untouched |
| LocalExecutor.LocalExecutor.IsEmpty | src/local_executor.rs:68-70 | true iff no task is active |
| LocalExecutor.LocalExecutor.Schedule | src/local_executor.rs:122-133 | appends the runnable at the back, then notifies its captured notifier exactly once, or not at all when it has none |
| LocalExecutor.LocalExecutor.Spawn | src/local_executor.rs:87-116 | the task's waker goes in at the vacant key, capturing the current notifier; the queue grows by exactly that runnable |
| LocalExecutor.LocalExecutor.TaskDone | src/local_executor.rs:194-200 | the finished or dropped task's key is removed from `active` |
| LocalExecutor.LocalExecutor.TryTick | src/local_executor.rs:75-84 | false and nothing changes on an empty queue; otherwise pops the front runnable, runs it once (freeing its key if it finished, re-queueing it if it woke itself) and returns true |
| LocalExecutor.CapturingRemove | src/local_executor.rs:139-141 | taking one task out of the active set lowers the count of tasks capturing a notifier by one for the notifier that task captured and for no other |
| LocalExecutor.LocalExecutor.WakeActive | src/local_executor.rs:138-142 | wakes every active task once: the runnables appended to the queue are exactly the active tasks' runnables, one each, and each notifier is called exactly as many times as there are active tasks that captured it |
| LocalExecutor.LocalExecutor.Drop | src/local_executor.rs:136-146 | wakes every active task once, so that each notifier is called exactly as many times as there are active tasks that captured it; leaves `active` empty, then drains the queue to empty |
| LocalExecutor.NotifierCapturedAtSpawn | src/local_executor.rs:98-111 | a task spawned before `set_notifier` keeps notifying the old notifier; later spawns notify the new one |
| LocalExecutor.FinishedKeyIsReused | src/local_executor.rs:91-94 | keys 0 and 1 are handed out, and the finished task's key 0 is reused |
| Promise.Settle | src/promise.rs:54-67 | returns iff the OCaml call returned `Ok(())`; a raised exception panics with the `expect` message; an `Err` panics through `unwrap` |
| Promise.Resolver.Resolve | src/promise.rs:54-59 | calls `Lwt.wakeup_later` on the boxed resolver with the value; the resolver is used up |
| Promise.Resolver.Reject | src/promise.rs:62-67 | calls `Lwt.wakeup_later_exn` with `msg` unchanged; the resolver is used up |
| Promise.Promise.New | src/promise.rs:90-102 | boxes the promise and the resolver `Lwt.task` returned, or panics if it raised |
| Promise.Promise.IntoFuture | src/promise.rs:137-139 | a not-started future holding the promise; the promise is used up |
| Promise.PromiseFuture.constructor | src/promise.rs:205-210 | starts `NotStarted` with the promise present |
| Promise.PromiseFuture.Poll | src/promise.rs:223-274 | the new fields and the result are those of `PollSpec` |
| Promise.FirstPollStarts | src/promise.rs:227-266 | the first poll in a context takes the promise, moves to `Running` and polls the inner future in the same call: `Pending` stays running, `Ready(r)` completes and returns `r` unchanged |
| Promise.FailedStartIsPermanent | src/promise.rs:233-243 | a start that fails after taking the promise panics, and every later poll panics with "Promise does not have a value inside" |
| Promise.ReadyOnlyOnce | src/promise.rs:259-271 | over any polls of a new future, after a `Ready` the future is completed and every later poll panics with "PromiseFuture polled after completion" |
| Promise.OcamlDesc | src/promise.rs:147-149 | the description of `T` wrapped as `((` … `) Lwt.t)` |
| Promise.ParseOcamlDesc | src/promise.rs:147-149 | the wrapped description parses back to the description of `T` |
| Promise.OcamlDescParsed | src/promise.rs:147-149 | every string that parses is the wrapping of what it parses to |
| Macro.SegmentsEqual | macro/src/lib.rs:28-46 | true iff same identifier and both without arguments; panics `unimplemented!` iff same identifier and both angle-bracketed or both parenthesised; false otherwise |
| Macro.AllSegmentsEqual | macro/src/lib.rs:21-25 | true when either list is empty; false only when some corresponding pair compares unequal; a panic is one of the two `unimplemented!` messages of `segments_equal` |
| Macro.PathsEqual | macro/src/lib.rs:12-26 | false when exactly one path has a leading `::` or the segment counts differ |
| Macro.AllSegmentsEqualTrueIff | macro/src/lib.rs:21-25 | the `zip`/`all` over equal-length segment lists holds iff every corresponding pair is equal |
| Macro.PathsEqualTrueIff | macro/src/lib.rs:12-26 | true iff same leading `::`, same segment count and all corresponding segments equal |
| Macro.AllSegmentsEqualSymmetric | macro/src/lib.rs:21-25 | the comparison of segment lists is symmetric, panics included |
| Macro.PathsEqualSymmetric | macro/src/lib.rs:12-46 | `paths_equal(p, q)` equals `paths_equal(q, p)`, panics included |
| Macro.PathsEqualPlain | macro/src/lib.rs:12-46 | against a path without arguments it never panics and is structural equality |
| Macro.WrapReturn | macro/src/lib.rs:52-64 | a default return type becomes `Promise<()>`, `-> T` becomes `-> Promise<T>` |
| Macro.WrapReturnKeepsType | macro/src/lib.rs:52-64 | no return type and `-> ()` wrap alike; different explicit types stay different |
| Macro.Select | macro/src/lib.rs:66-71 | exactly the attributes whose path is (or is not) `ocaml::func` |
| Macro.Partition | macro/src/lib.rs:66-71 | when it returns, the two parts together are a permutation of the attributes, the first holding only attributes whose path equals `ocaml::func` and the second only ones whose path does not; a panic comes from comparing some attribute's path |
| Macro.PartitionSelects | macro/src/lib.rs:66-71 | the partition never panics and splits into the `ocaml::func` attributes and the others, each in order |
| Macro.FuncImpl | macro/src/lib.rs:48-94 | when it returns, every input attribute is kept and at most one is added; name and arguments are kept; the return type becomes a path type (the promise); the body creates the promise, spawns the block, detaches the task and returns the promise |
| Macro.FuncImplSpec | macro/src/lib.rs:48-94 | never panics; other attributes first in order, then the existing `ocaml::func` attributes verbatim or a default one; name and arguments kept; return type wrapped; body creates, spawns, detaches and returns in that order; visibility dropped |
| Macro.ExpansionHasOcamlFunc | macro/src/lib.rs:73-78 | the expansion always has an `ocaml::func` attribute: the original ones, or the default alone when there were none |
| Macro.UnitReturnGetsDefaultAttribute | macro/src/lib.rs:105-136 | `-> ()` without attributes gets `#[ocaml::func]` and `-> Promise<()>` |
| Macro.ExistingAttributeIsKept | macro/src/lib.rs:138-162 | `#[ocaml::func(whatever)]` is kept and no default is added |
| Macro.ArgumentsAreKept | macro/src/lib.rs:164-187 | the arguments are kept and `-> u64` becomes `-> Promise<u64>` |

## Left out

- MlBox.IntoValueNew: boxing a raw value and unboxing it gives back the same root as `ensure_rooted_value` only because a root is identified by its target. In the source, `MlBox::new` and `ensure_rooted_value` each call `Root::new`, which registers two distinct GC roots on the same OCaml value.
- `run_in_ocaml_domain` and `run_with_gc_lock` (src/domain_executor.rs:235-253, src/bridged_executor.rs:287-306) are left out. They are a cross-thread rendezvous over a channel and the OCaml lock, and their point is concurrency.
- Tokio's runtime and its `enter` guard inside `tick` are not modelled. The internals of `async_executor`, `futures_lite`, `waker_fn` and `ConcurrentQueue` are not modelled either. The driver is "poll once", and the queue is a sequential FIFO.
- Mutexes and `RefCell`s are taken as sequential access. Their poisoning and borrow panics, and the `borrow!`/`borrow_mut!` macros, are not modelled.
- Building the tokio runtime can fail (`build().unwrap()`). That failure is not modelled, and building always succeeds.
- `Notification::send`, the notifier's `notify` body and every `ocaml::import!` callback are foreign. They are parameters or logged calls.
- `unique_id` of `Promise` is left out. It is a HighwayHash with compile-time random keys.
- `to_value`/`from_value` of `Promise` are left out. They only box and unbox the value.
- `spawn_with_runtime`, `spawn_using_runtime` and `handle_from_runtime` are left out. They fetch the executor through the `olwti_current_executor` foreign call.
- `DomainExecutor::spawn`, `Handle::spawn` and the spawning of tasks into the foreign executor are modelled only as the executor the task goes to.
- `Executor::new` and the `Notification` passed to `new` are not modelled.
- Rust formats panic messages with escaping. The model concatenates the message with the payload as given, without Debug escaping.
- The legacy files `src/ml_box.rs`, `src/bridged_executor.rs` and `src/local_executor.rs` are modelled although `src/lib.rs:125-132` no longer compiles them.
- Promise.PromiseFuture.Poll: whether the taken box is its value's only reference (`into_value` of the smart-pointer `MlBox`) is a parameter, `sole`, rather than computed from reference counts.
- Promise.PromiseFuture.Poll: the pinned future built around the wrapped promise is the oracle `PollInput.inner`. The model does not follow the conversion `T::from_value` or the inner `MlBoxFuture` through it.
- CamlRuntime.DomainLock.WithReleasedLock requires the lock to be held on entry, and WithAcquiredLock requires it to be released. The OCaml runtime demands this of callers of `caml_enter_blocking_section`/`caml_leave_blocking_section`.
- LocalExecutor.LocalExecutor.Drop does not state the order in which tasks are woken. The slab's `drain` order is not modelled.
- LocalExecutor.LocalExecutor.Drop schedules a woken task even if it is already in the queue. `async_task` ignores a wake of an already scheduled runnable, so the model may notify more often than the source. Dropping the runnables while the queue drains cancels their tasks; that cancellation is not modelled.
- LocalExecutor.LocalExecutor.TryTick takes what one run of the task did (finished, pending, woke itself) as a parameter.
- The `Send`/`Sync` markers, `unsafe impl`s and `assert_impl_all!` are left out. They are type-level facts with no behaviour.
- ExecutorContext.DropStep: the panic message is `assertion failed` alone. The source's message goes on with the text of the asserted condition, which differs between src/domain_executor.rs and src/bridged_executor.rs; that text is not reproduced.
- Macro.FuncImpl: the function is modelled by its attributes, visibility, name, arguments, return type and body. Its generics, `where` clause, `async`, `unsafe` and `extern` ABI are not modelled. `func_impl` does not copy them into the generated function, and it does not copy the visibility either.
