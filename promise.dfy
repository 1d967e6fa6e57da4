/** `src/promise.rs`: an OCaml `'a Lwt.t` seen from Rust. `Promise::new`
    creates a promise/resolver pair through `Lwt.task`; a `Resolver` settles
    the promise once; a `Promise` turns, once, into a `PromiseFuture` that
    wraps the OCaml promise into a Rust future on its first poll and then
    polls that future. Foreign calls are parameters: what `olwti_lwt_task`,
    `olwti_lwt_wakeup_later*` and `olwti_wrap_lwt_future` gave back, and
    what one poll of the wrapped future returned. Moving `self` into
    `resolve`, `reject` and `into_future` is a `consumed` flag that the
    caller must find unset. */
module Promise {
  import opened Base
  import opened Ocaml
  import MlBox
  import opened ExecutorContext

  /** The foreign call a `Resolver` makes, with its arguments. */
  datatype WakeupCall =
    | WakeupLater(resolver: Value, value: Value)
    | WakeupLaterExn(resolver: Value, msg: string)

  /** The `Result<(), String>` returned by a wake-up call that did not raise. */
  datatype CallResult = CallOk | CallErr(message: string)

  const TaskRaised := "olwti_lwt_task has thrown an exception"
  const WakeupRaised := "olwti_lwt_wakeup_later has thrown an exception"
  const WakeupExnRaised := "olwti_lwt_wakeup_later_exn has thrown an exception"
  const UnwrapFailed := "called `Result::unwrap()` on an `Err` value: "
  const NoPromise := "Promise does not have a value inside"
  const NotSoleReference := "MlBox inside PromiseFuture is expected to be only reference"
  const WrapRaised := "olwti_wrap_lwt_future has thrown an exception"
  const PolledAfterCompletion := "PromiseFuture polled after completion"

  /** `.expect(raised).unwrap()` on the answer of a wake-up call: a raised
      OCaml exception panics with `raised`, an `Err` from the OCaml side
      panics through `unwrap`, and only `Ok(())` returns. */
  function Settle(answer: Ffi<CallResult>, raised: string): (o: Outcome<()>)
    ensures o.Returned? <==> answer == Answered(CallOk)
    ensures answer.Raised? ==> o == Panicked(raised + ": " + answer.exception)
    ensures answer.Answered? && answer.value.CallErr? ==>
              o == Panicked(UnwrapFailed + "\"" + answer.value.message + "\"")
  {
    match answer
    case Raised(e) => Panicked(raised + ": " + e)
    case Answered(CallErr(m)) => Panicked(UnwrapFailed + "\"" + m + "\"")
    case Answered(CallOk) => Returned(())
  }

  /** `Resolver<T>`: the boxed `'a Lwt.u`. */
  class Resolver {
    const resolver: MlBox.MlBox
    var consumed: bool

    constructor (resolver: MlBox.MlBox)
      ensures this.resolver == resolver && !consumed
    {
      this.resolver := resolver;
      consumed := false;
    }

    /** `resolve(self, gc, v)`: `Lwt.wakeup_later` on the resolver with the
        converted value; the resolver is used up. */
    method Resolve(v: Value, answer: Ffi<CallResult>) returns (call: WakeupCall, o: Outcome<()>)
      requires !consumed
      modifies this
      ensures consumed
      ensures call == WakeupLater(MlBox.IntoValue(resolver), v)
      ensures o == Settle(answer, WakeupRaised)
    {
      consumed := true;
      call := WakeupLater(MlBox.IntoValue(resolver), v);
      o := Settle(answer, WakeupRaised);
    }

    /** `reject(self, gc, msg)`: `Lwt.wakeup_later_exn` with `msg` unchanged;
        the resolver is used up. */
    method Reject(msg: string, answer: Ffi<CallResult>) returns (call: WakeupCall, o: Outcome<()>)
      requires !consumed
      modifies this
      ensures consumed
      ensures call == WakeupLaterExn(MlBox.IntoValue(resolver), msg)
      ensures o == Settle(answer, WakeupExnRaised)
    {
      consumed := true;
      call := WakeupLaterExn(MlBox.IntoValue(resolver), msg);
      o := Settle(answer, WakeupExnRaised);
    }
  }

  /** `Promise<T>`: the boxed `'a Lwt.t`. */
  class Promise {
    const inner: MlBox.MlBox
    var consumed: bool

    constructor (inner: MlBox.MlBox)
      ensures this.inner == inner && !consumed
    {
      this.inner := inner;
      consumed := false;
    }

    /** `Promise::new`: boxes the promise and the resolver `Lwt.task` gave,
        or panics when it raised. */
    static method New(task: Ffi<(Value, Value)>) returns (r: Outcome<(Promise, Resolver)>)
      ensures task.Raised? ==> r == Panicked(TaskRaised + ": " + task.exception)
      ensures task.Answered? ==>
                && r.Returned? && fresh(r.value.0) && fresh(r.value.1)
                && r.value.0.inner == MlBox.New(task.value.0) && !r.value.0.consumed
                && r.value.1.resolver == MlBox.New(task.value.1) && !r.value.1.consumed
    {
      match task
      case Raised(e) =>
        r := Panicked(TaskRaised + ": " + e);
      case Answered((vFut, vResolver)) =>
        var fut := new Promise(MlBox.New(vFut));
        var resolver := new Resolver(MlBox.New(vResolver));
        r := Returned((fut, resolver));
    }

    /** `into_future(self)`: a not yet started future holding a clone of the
        promise; the promise is used up. */
    method IntoFuture<T>() returns (f: PromiseFuture<T>)
      requires !consumed
      modifies this
      ensures consumed
      ensures fresh(f) && f.promise == Some(inner) && f.state == NotStarted
    {
      consumed := true;
      f := new PromiseFuture(inner);
    }
  }

  /** `PromiseFutureState<T>`. `Running` keeps the OCaml promise value handed
      to `olwti_wrap_lwt_future`; the pinned future built around it is the
      oracle `PollInput.inner`. */
  datatype PromiseFutureState = NotStarted | Running(wrapped: Value) | Completed

  /** Everything one call of `poll` depends on besides the future's fields:
      the thread's executor contexts (for `ocaml_runtime`), whether the
      taken box is its value's only reference, what `olwti_wrap_lwt_future`
      did, and what one poll of the running future returns. */
  datatype PollInput<T> = PollInput(ambient: seq<Context>, sole: bool, wrap: Ffi<()>, inner: Poll<Result<T>>)

  /** Polling the running future once. */
  function RunningStep<T>(promise: Option<MlBox.MlBox>, state: PromiseFutureState, inner: Poll<Result<T>>)
    : (Option<MlBox.MlBox>, PromiseFutureState, Outcome<Poll<Result<T>>>)
  {
    match inner
    case Pending => (promise, state, Returned(Pending))
    case Ready(r) => (promise, Completed, Returned(Ready(r)))
  }

  /** One call of `PromiseFuture::poll` on the fields `promise` and `state`:
      the new fields and what the call returned or why it panicked. */
  function PollSpec<T>(promise: Option<MlBox.MlBox>, state: PromiseFutureState, i: PollInput<T>)
    : (Option<MlBox.MlBox>, PromiseFutureState, Outcome<Poll<Result<T>>>)
  {
    match state
    case Completed => (promise, state, Panicked(PolledAfterCompletion))
    case Running(_) => RunningStep(promise, state, i.inner)
    case NotStarted =>
      if OcamlRuntime(i.ambient).Panicked? then (promise, state, Panicked(OutsideContext))
      else if promise.None? then (None, state, Panicked(NoPromise))
      else if !i.sole then (None, state, Panicked(NotSoleReference))
      else if i.wrap.Raised? then (None, state, Panicked(WrapRaised + ": " + i.wrap.exception))
      else RunningStep(None, Running(MlBox.IntoValue(promise.value)), i.inner)
  }

  function Rank(s: PromiseFutureState): nat
  {
    match s
    case NotStarted => 2
    case Running(_) => 1
    case Completed => 0
  }

  /** `PromiseFuture<T>`. */
  class PromiseFuture<T> {
    var promise: Option<MlBox.MlBox>
    var state: PromiseFutureState

    /** `PromiseFuture::new`: holds the promise and has not started. */
    constructor (inner: MlBox.MlBox)
      ensures promise == Some(inner) && state == NotStarted
    {
      promise := Some(inner);
      state := NotStarted;
    }

    /** `Future::poll`: a loop over `state` that starts the future if needed
        and then polls it, as `PollSpec` describes. */
    method Poll(i: PollInput<T>) returns (r: Outcome<Poll<Result<T>>>)
      modifies this
      ensures (promise, state, r) == PollSpec(old(promise), old(state), i)
    {
      while true
        invariant || (state == old(state) && promise == old(promise))
                  || (&& old(state).NotStarted? && OcamlRuntime(i.ambient).Returned?
                      && old(promise).Some? && i.sole && i.wrap.Answered?
                      && promise == None && state == Running(MlBox.IntoValue(old(promise).value)))
        decreases Rank(state)
      {
        match state
        case NotStarted =>
          var gc := OcamlRuntime(i.ambient);
          if gc.Panicked? {
            return Panicked(gc.message);
          }
          var taken := promise;
          promise := None;
          if taken.None? {
            return Panicked(NoPromise);
          }
          if !i.sole {
            return Panicked(NotSoleReference);
          }
          var wrapper := i.wrap;
          if wrapper.Raised? {
            return Panicked(WrapRaised + ": " + wrapper.exception);
          }
          state := Running(MlBox.IntoValue(taken.value));
        case Running(_) =>
          match i.inner {
            case Ready(result) =>
              state := Completed;
              return Returned(Ready(result));
            case Pending =>
              return Returned(Pending);
          }
        case Completed =>
          return Panicked(PolledAfterCompletion);
      }
    }
  }

  /** The first poll inside an executor context takes the promise, wraps it,
      and polls the wrapped future in the same call: pending keeps the
      future running, ready completes it with the result unchanged. */
  lemma FirstPollStarts<T>(p: MlBox.MlBox, i: PollInput<T>)
    requires i.ambient != [] && i.sole && i.wrap.Answered?
    ensures PollSpec(Some(p), NotStarted, i).0 == None
    ensures i.inner.Pending? ==>
              PollSpec(Some(p), NotStarted, i).1 == Running(MlBox.IntoValue(p))
              && PollSpec(Some(p), NotStarted, i).2 == Returned(Pending)
    ensures i.inner.Ready? ==>
              PollSpec(Some(p), NotStarted, i).1 == Completed
              && PollSpec(Some(p), NotStarted, i).2 == Returned(Ready(i.inner.value))
  {
  }

  /** Once a start has taken the promise and failed, every later poll in an
      executor context panics because the promise is gone. */
  lemma FailedStartIsPermanent<T>(p: MlBox.MlBox, i: PollInput<T>, j: PollInput<T>)
    requires i.ambient != [] && (!i.sole || i.wrap.Raised?)
    requires j.ambient != []
    ensures PollSpec(Some(p), NotStarted, i).2.Panicked?
    ensures PollSpec(PollSpec(Some(p), NotStarted, i).0, PollSpec(Some(p), NotStarted, i).1, j).2
         == Panicked(NoPromise)
  {
  }

  /** Polls in order, from the last one backwards. */
  function RunPolls<T>(promise: Option<MlBox.MlBox>, state: PromiseFutureState, inputs: seq<PollInput<T>>)
    : (Option<MlBox.MlBox>, PromiseFutureState, seq<Outcome<Poll<Result<T>>>>)
    decreases |inputs|
  {
    if inputs == [] then (promise, state, [])
    else
      var (p1, s1, obs) := RunPolls(promise, state, inputs[..|inputs| - 1]);
      var (p2, s2, o) := PollSpec(p1, s1, inputs[|inputs| - 1]);
      (p2, s2, obs + [o])
  }

  predicate IsReady<T>(o: Outcome<Poll<Result<T>>>)
  {
    o.Returned? && o.value.Ready?
  }

  /** A `Ready` among the observations means the future is completed and
      every observation after it is the completion panic. */
  ghost predicate ReadyIsLast<T>(st: PromiseFutureState, obs: seq<Outcome<Poll<Result<T>>>>)
  {
    && (forall k :: 0 <= k < |obs| && IsReady(obs[k]) ==> st.Completed?)
    && (forall k, l :: 0 <= k < l < |obs| && IsReady(obs[k]) ==> obs[l] == Panicked(PolledAfterCompletion))
  }

  /** Over any sequence of polls of a new `PromiseFuture`, whatever the
      contexts, foreign calls and inner results: once a poll has returned
      `Ready`, the future is completed and every later poll panics, so at
      most one poll returns `Ready`. */
  lemma {:induction false} ReadyOnlyOnce<T>(p: MlBox.MlBox, inputs: seq<PollInput<T>>)
    ensures ReadyIsLast(RunPolls(Some(p), NotStarted, inputs).1, RunPolls(Some(p), NotStarted, inputs).2)
    decreases |inputs|
  {
    if inputs != [] {
      var init := inputs[..|inputs| - 1];
      ReadyOnlyOnce(p, init);
      var before := RunPolls(Some(p), NotStarted, init);
      var s1, obs := before.1, before.2;
      var after := PollSpec(before.0, s1, inputs[|inputs| - 1]);
      var s2, o := after.1, after.2;
      var obs' := obs + [o];
      assert RunPolls(Some(p), NotStarted, inputs) == (after.0, s2, obs');
      assert forall k :: 0 <= k < |obs| ==> obs'[k] == obs[k];
      if s1.Completed? {
        assert s2.Completed? && o == Panicked(PolledAfterCompletion);
      } else {
        assert forall k :: 0 <= k < |obs| ==> !IsReady(obs[k]);
        assert IsReady(o) ==> s2.Completed?;
      }
    }
  }

  /** `ocaml_desc` of `Promise<T>` given the description of `T`. */
  function OcamlDesc(inner: string): (d: string)
    ensures |d| == |inner| + 10
    ensures d[..2] == "((" && d[|d| - 8..] == ") Lwt.t)"
    ensures d[2..|d| - 8] == inner
  {
    "((" + inner + ") Lwt.t)"
  }

  /** Reads the description of `T` back out of that of `Promise<T>`. */
  function ParseLwtDesc(d: string): (r: Option<string>)
    ensures r.Some? ==> |r.value| + 10 == |d|
  {
    if |d| >= 10 && d[..2] == "((" && d[|d| - 8..] == ") Lwt.t)" then Some(d[2..|d| - 8]) else None
  }

  lemma ParseOcamlDesc(inner: string)
    ensures ParseLwtDesc(OcamlDesc(inner)) == Some(inner)
  {
  }

  /** Every string `ParseLwtDesc` accepts is the description of a promise. */
  lemma OcamlDescParsed(d: string, inner: string)
    requires ParseLwtDesc(d) == Some(inner)
    ensures OcamlDesc(inner) == d
  {
    assert d == d[..2] + d[2..|d| - 8] + d[|d| - 8..];
  }
}
