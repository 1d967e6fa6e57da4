/** The shared state of `MlBoxFuture` as a state machine over values. Both
    copies of the future (`src/ml_box_future.rs` and the older
    `src/ml_box.rs`) are proved against these step functions, so the
    one-shot properties below hold of both. */
module SharedFuture {
  import opened Base

  /** `MlBoxFutureSharedState { value, waker, completed }` */
  datatype State<V> = State(value: Option<Result<V>>, waker: Option<Waker>, completed: bool)

  /** The state `MlBoxFuture::new` creates. */
  function Initial<V>(): State<V>
  {
    State(None, None, false)
  }

  const AlreadyResolved := "Attempt to resolve an already resolved promise"

  /** What a successful `set_value` leaves behind: the new state and the
      waker it woke, if one was stored. */
  datatype Resolution<V> = Resolution(next: State<V>, woken: Option<Waker>)

  /** `set_value`: panics on a completed state; otherwise marks it completed,
      stores the value and takes the stored waker to wake it. */
  function SetValueStep<V>(s: State<V>, v: Result<V>): Outcome<Resolution<V>>
  {
    if s.completed then Panicked(AlreadyResolved)
    else Returned(Resolution(State(Some(v), None, true), s.waker))
  }

  /** `poll`: takes the value out if there is one; otherwise stores the
      caller's waker in place of any earlier one and reports `Pending`. */
  function PollStep<V>(s: State<V>, cx: Waker): (State<V>, Poll<Result<V>>)
  {
    match s.value
    case Some(r) => (s.(value := None), Ready(r))
    case None => (s.(waker := Some(cx)), Pending)
  }

  /** One call on the shared state, through any clone. */
  datatype Event<V> = PollEvent(cx: Waker) | SetEvent(v: Result<V>)

  /** What the caller of that event sees. */
  datatype Observation<V> =
    | Polled(poll: Poll<Result<V>>)
    | Resolved(v: Result<V>, woken: Option<Waker>)
    | ResolvePanicked

  function Step<V>(s: State<V>, e: Event<V>): (State<V>, Observation<V>)
  {
    match e
    case PollEvent(cx) =>
      var (s', p) := PollStep(s, cx);
      (s', Polled(p))
    case SetEvent(v) =>
      match SetValueStep(s, v)
      case Panicked(_) => (s, ResolvePanicked)
      case Returned(res) => (res.next, Resolved(v, res.woken))
  }

  /** Runs events in order, from the last one backwards. */
  function Run<V>(s: State<V>, es: seq<Event<V>>): (State<V>, seq<Observation<V>>)
    decreases |es|
  {
    if es == [] then (s, [])
    else
      var (s1, obs) := Run(s, es[..|es| - 1]);
      var (s2, o) := Step(s1, es[|es| - 1]);
      (s2, obs + [o])
  }

  /** Running one more event extends the run by one step. */
  lemma RunSnoc<V>(s: State<V>, es: seq<Event<V>>, e: Event<V>)
    ensures Run(s, es + [e]) == (Step(Run(s, es).0, e).0, Run(s, es).1 + [Step(Run(s, es).0, e).1])
  {
    assert (es + [e])[..|es + [e]| - 1] == es;
  }

  /** Number of successful resolutions observed. */
  function Resolutions<V>(obs: seq<Observation<V>>): nat
  {
    if obs == [] then 0
    else Resolutions(obs[..|obs| - 1]) + (if obs[|obs| - 1].Resolved? then 1 else 0)
  }

  /** Number of polls that returned `Ready`. */
  function Readies<V>(obs: seq<Observation<V>>): nat
  {
    if obs == [] then 0
    else Readies(obs[..|obs| - 1]) + (if obs[|obs| - 1].Polled? && obs[|obs| - 1].poll.Ready? then 1 else 0)
  }

  /** Number of wakers woken. */
  function Wakes<V>(obs: seq<Observation<V>>): nat
  {
    if obs == [] then 0
    else Wakes(obs[..|obs| - 1]) + (if obs[|obs| - 1].Resolved? && obs[|obs| - 1].woken.Some? then 1 else 0)
  }

  /** The value of the first successful resolution, if any. */
  function FirstResolution<V>(obs: seq<Observation<V>>): Option<Result<V>>
  {
    if obs == [] then None
    else
      var earlier := FirstResolution(obs[..|obs| - 1]);
      if earlier.Some? then earlier
      else if obs[|obs| - 1].Resolved? then Some(obs[|obs| - 1].v)
      else None
  }

  /** What holds between a state reached from `Initial()` and the
      observations made on the way. */
  ghost predicate Consistent<V>(s: State<V>, obs: seq<Observation<V>>)
  {
    && (!s.completed ==> s.value.None? && Resolutions(obs) == 0 && Readies(obs) == 0
                         && FirstResolution(obs).None?)
    && (s.completed ==> Resolutions(obs) == 1 && FirstResolution(obs).Some?
                        && (s.value.Some? ==> s.value == FirstResolution(obs) && Readies(obs) == 0)
                        && (s.value.None? ==> Readies(obs) == 1))
    && Wakes(obs) <= Resolutions(obs)
    && (forall i :: 0 <= i < |obs| && obs[i].Polled? && obs[i].poll.Ready? ==>
          Some(obs[i].poll.value) == FirstResolution(obs))
  }

  lemma {:induction false} StepKeepsConsistent<V>(s: State<V>, obs: seq<Observation<V>>, e: Event<V>)
    requires Consistent(s, obs)
    ensures Consistent(Step(s, e).0, obs + [Step(s, e).1])
  {
    var obs' := obs + [Step(s, e).1];
    assert obs'[..|obs'| - 1] == obs;
    assert forall i :: 0 <= i < |obs| ==> obs'[i] == obs[i];
  }

  /** Over any sequence of polls and resolutions through any clones, starting
      from a new future: at most one resolve or reject succeeds, at most one
      poll returns `Ready`, at most one waker is woken, and every `Ready`
      carries exactly the value of the successful resolution. */
  lemma {:induction false} OneShot<V>(es: seq<Event<V>>)
    ensures Consistent(Run(Initial<V>(), es).0, Run(Initial<V>(), es).1)
    ensures Resolutions(Run(Initial<V>(), es).1) <= 1
    ensures Readies(Run(Initial<V>(), es).1) <= Resolutions(Run(Initial<V>(), es).1)
    ensures Wakes(Run(Initial<V>(), es).1) <= 1
    decreases |es|
  {
    if es != [] {
      OneShot(es[..|es| - 1]);
      var (s1, obs) := Run(Initial<V>(), es[..|es| - 1]);
      StepKeepsConsistent(s1, obs, es[|es| - 1]);
    }
  }

  /** Once completed, a state stays completed, whatever happens to it. */
  lemma CompletedIsFinal<V>(s: State<V>, e: Event<V>)
    requires s.completed
    ensures Step(s, e).0.completed
    ensures e.SetEvent? ==> Step(s, e).1 == ResolvePanicked
  {
  }

  /** A waker stored by a pending poll is the one resolution wakes, and the
      next poll returns the resolved value. */
  lemma PendingPollIsWokenByResolve<V>(cx: Waker, cx': Waker, v: Result<V>)
    ensures Run(Initial<V>(), [PollEvent(cx), SetEvent(v), PollEvent(cx')]).1
         == [Polled(Pending), Resolved(v, Some(cx)), Polled(Ready(v))]
  {
    var e0: seq<Event<V>> := [];
    RunSnoc(Initial<V>(), e0, PollEvent(cx));
    RunSnoc(Initial<V>(), e0 + [PollEvent(cx)], SetEvent(v));
    RunSnoc(Initial<V>(), e0 + [PollEvent(cx)] + [SetEvent(v)], PollEvent(cx'));
    assert e0 + [PollEvent(cx)] + [SetEvent(v)] + [PollEvent(cx')] == [PollEvent(cx), SetEvent(v), PollEvent(cx')];
  }
}
