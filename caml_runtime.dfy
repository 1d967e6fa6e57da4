/** `src/caml_runtime.rs`: registering foreign threads with the OCaml runtime,
    and running a closure with the OCaml domain lock released or acquired.
    `caml_enter_blocking_section` releases the lock and
    `caml_leave_blocking_section` acquires it; both are modelled as updates of
    one `held` flag together with a trace of what happened, in order. */
module CamlRuntime {
  import opened Base

  /** Whether the worker thread goes on, or the process is aborted after the
      diagnostic is written to stderr. */
  datatype Registration = Continued | Aborted(diagnostic: string)

  /** `register_thread`, given what `caml_c_thread_register()` returned. */
  function RegisterThread(ret: int): (r: Registration)
    ensures r.Continued? <==> ret == 1
    ensures r.Aborted? ==> r.diagnostic == "caml_c_thread_register() failed!"
  {
    if ret != 1 then Aborted("caml_c_thread_register() failed!") else Continued
  }

  /** `unregister_thread`, given what `caml_c_thread_unregister()` returned. */
  function UnregisterThread(ret: int): (r: Registration)
    ensures r.Continued? <==> ret == 1
    ensures r.Aborted? ==> r.diagnostic == "caml_c_thread_unregister() failed!"
  {
    if ret != 1 then Aborted("caml_c_thread_unregister() failed!") else Continued
  }

  type ThreadId = nat

  /** `caml_c_thread_register` as documented next to its declaration: 1 on
      success, 0 on error; an already registered thread is left alone and
      gets 0. Whether the runtime fails for another reason is the parameter
      `fails`; a failed call leaves the set of registered threads alone. */
  function CThreadRegister(registered: set<ThreadId>, t: ThreadId, fails: bool): (r: (set<ThreadId>, int))
    ensures r.1 == 0 || r.1 == 1
    ensures r.1 == 1 <==> t !in registered && !fails
    ensures r.0 == if r.1 == 1 then registered + {t} else registered
  {
    if t in registered || fails then (registered, 0) else (registered + {t}, 1)
  }

  /** `caml_c_thread_unregister` as documented: 1 on success, 0 on error; a
      thread that was not registered is left alone and gets 0. Whether the
      runtime fails for another reason is the parameter `fails`; a failed
      call leaves the set of registered threads alone. */
  function CThreadUnregister(registered: set<ThreadId>, t: ThreadId, fails: bool): (r: (set<ThreadId>, int))
    ensures r.1 == 0 || r.1 == 1
    ensures r.1 == 1 <==> t in registered && !fails
    ensures r.0 == if r.1 == 1 then registered - {t} else registered
  {
    if t !in registered || fails then (registered, 0) else (registered - {t}, 1)
  }

  /** A tokio worker that starts unregistered passes the start hook exactly
      when the runtime does not fail it, and otherwise aborts; once started,
      it passes the stop hook exactly when the runtime does not fail that
      call. When neither call fails, the runtime's set of registered threads
      is as it was once the worker stops. */
  lemma WorkerLifecycle(registered: set<ThreadId>, t: ThreadId, startFails: bool, stopFails: bool)
    requires t !in registered
    ensures var (started, ret) := CThreadRegister(registered, t, startFails);
            RegisterThread(ret) == Continued <==> !startFails
    ensures var (started, _) := CThreadRegister(registered, t, startFails);
            !startFails ==>
              && t in started
              && (UnregisterThread(CThreadUnregister(started, t, stopFails).1) == Continued <==> !stopFails)
              && (!stopFails ==> CThreadUnregister(started, t, stopFails).0 == registered)
  {
  }

  /** Starting a worker on a thread that is already registered aborts, and
      so does stopping one that never registered, whatever else the runtime
      does. */
  lemma MisuseAborts(registered: set<ThreadId>, t: ThreadId, fails: bool)
    ensures t in registered ==> RegisterThread(CThreadRegister(registered, t, fails).1).Aborted?
    ensures t !in registered ==> UnregisterThread(CThreadUnregister(registered, t, fails).1).Aborted?
  {
  }

  /** One observable step around the closure: a release, an acquire, or the
      run of `f` (returning or panicking) with the lock in the given state. */
  datatype LockEvent = Released | Acquired | Ran(lockHeld: bool)

  /** Whether the lock is held after the events, starting from `held`. */
  function HeldAfter(held: bool, events: seq<LockEvent>): bool
    decreases |events|
  {
    if events == [] then held
    else
      match events[|events| - 1]
      case Released => false
      case Acquired => true
      case Ran(_) => HeldAfter(held, events[..|events| - 1])
  }

  /** Every release happens with the lock held, every acquire without it,
      and every run of a closure sees the lock state it was promised. */
  ghost predicate Disciplined(held: bool, events: seq<LockEvent>)
    decreases |events|
  {
    events == [] ||
    (&& Disciplined(held, events[..|events| - 1])
     && var before := HeldAfter(held, events[..|events| - 1]);
        match events[|events| - 1]
        case Released => before
        case Acquired => !before
        case Ran(h) => h == before)
  }

  /** A bracket appended to a disciplined trace keeps it disciplined and
      restores the lock to its state before the bracket. */
  lemma {:induction false} BracketRestores(held: bool, events: seq<LockEvent>, first: LockEvent, last: LockEvent)
    requires Disciplined(held, events)
    requires (first, last) == (Released, Acquired) || (first, last) == (Acquired, Released)
    requires HeldAfter(held, events) == first.Released?
    ensures Disciplined(held, events + [first, Ran(!first.Released?), last])
    ensures HeldAfter(held, events + [first, Ran(!first.Released?), last]) == HeldAfter(held, events)
  {
    var e1 := events + [first];
    var e2 := e1 + [Ran(!first.Released?)];
    var e3 := e2 + [last];
    assert e1[..|e1| - 1] == events;
    assert e2[..|e2| - 1] == e1;
    assert e3[..|e3| - 1] == e2;
    assert HeldAfter(held, e1) == !first.Released?;
    assert Disciplined(held, e1);
    assert HeldAfter(held, e2) == !first.Released?;
    assert Disciplined(held, e2);
    assert Disciplined(held, e3);
    assert events + [first, Ran(!first.Released?), last] == e3;
  }

  /** The OCaml domain lock as seen by the calling thread. */
  class DomainLock {
    var held: bool
    var events: seq<LockEvent>
    /** Whether the thread held the lock before any event was recorded. */
    const initial: bool

    ghost predicate Valid()
      reads this
    {
      held == HeldAfter(initial, events) && Disciplined(initial, events)
    }

    constructor (held: bool)
      ensures Valid() && this.held == held && events == []
    {
      this.held := held;
      initial := held;
      events := [];
    }

    /** `with_released_lock(f)`: releases the lock, runs `f`, and re-acquires
        the lock before returning what `f` returned or re-raising its panic. */
    method WithReleasedLock<R>(f: Outcome<R>) returns (r: Outcome<R>)
      requires Valid() && held
      modifies this
      ensures Valid() && held
      ensures events == old(events) + [Released, Ran(false), Acquired]
      ensures r == f
    {
      BracketRestores(initial, events, Released, Acquired);
      held := false;
      events := events + [Released];
      var result := f;
      events := events + [Ran(held)];
      held := true;
      events := events + [Acquired];
      assert events == old(events) + [Released, Ran(false), Acquired];
      r := result;
    }

    /** `with_acquired_lock(f)`: acquires the lock, runs `f` with the runtime
        handle, and releases the lock before returning what `f` returned or
        re-raising its panic. */
    method WithAcquiredLock<R>(f: Outcome<R>) returns (r: Outcome<R>)
      requires Valid() && !held
      modifies this
      ensures Valid() && !held
      ensures events == old(events) + [Acquired, Ran(true), Released]
      ensures r == f
    {
      BracketRestores(initial, events, Acquired, Released);
      held := true;
      events := events + [Acquired];
      var result := f;
      events := events + [Ran(held)];
      held := false;
      events := events + [Released];
      assert events == old(events) + [Acquired, Ran(true), Released];
      r := result;
    }
  }
}
