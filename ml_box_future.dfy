/** `src/ml_box_future.rs`: a future resolved or rejected from the OCaml side
    and awaited from Rust. The state sits behind `Arc<Mutex<..>>`; the model
    treats the mutex as exclusive sequential access and every clone of the
    future as another reference to one `MlBoxFutureSharedState` object. */
module MlBoxFuture {
  import opened Base
  import opened SharedFuture
  import MlBox

  /** `MlBoxFutureSharedState`. `woken` records, in order, every waker that
      `set_value` woke. */
  class MlBoxFutureSharedState {
    var value: Option<Result<MlBox.MlBox>>
    var waker: Option<Waker>
    var completed: bool
    var woken: seq<Waker>

    /** The fields as a value of the shared state machine. */
    function Snapshot(): State<MlBox.MlBox>
      reads this
    {
      State(value, waker, completed)
    }

    constructor ()
      ensures Snapshot() == Initial() && woken == []
    {
      value, waker, completed := None, None, false;
      woken := [];
    }
  }

  class MlBoxFuture {
    const sharedState: MlBoxFutureSharedState

    /** `MlBoxFuture::new`: no value, no waker, not completed. */
    constructor ()
      ensures fresh(sharedState)
      ensures sharedState.Snapshot() == Initial() && sharedState.woken == []
    {
      sharedState := new MlBoxFutureSharedState();
    }

    /** `#[derive(Clone)]`: the clone shares the original's state. */
    constructor Clone(original: MlBoxFuture)
      ensures sharedState == original.sharedState
    {
      sharedState := original.sharedState;
    }

    /** `Future::poll`: hands out a present value once and empties the slot;
        otherwise stores `cx` as the waker and reports `Pending`. */
    method Poll(cx: Waker) returns (p: Poll<Result<MlBox.MlBox>>)
      modifies sharedState
      ensures (sharedState.Snapshot(), p) == PollStep(old(sharedState.Snapshot()), cx)
      ensures sharedState.woken == old(sharedState.woken)
    {
      var taken := sharedState.value;
      sharedState.value := None;
      match taken
      case Some(maybeValue) =>
        p := Ready(maybeValue);
      case None =>
        sharedState.waker := Some(cx);
        p := Pending;
    }

    /** `set_value`: panics when already completed, leaving the state as it
        was; otherwise completes with `v` and wakes the stored waker once. */
    method SetValue(v: Result<MlBox.MlBox>) returns (o: Outcome<()>)
      modifies sharedState
      ensures SetValueStep(old(sharedState.Snapshot()), v).Panicked? ==>
                o == Panicked(AlreadyResolved) && sharedState.Snapshot() == old(sharedState.Snapshot())
                && sharedState.woken == old(sharedState.woken)
      ensures SetValueStep(old(sharedState.Snapshot()), v).Returned? ==>
                var res := SetValueStep(old(sharedState.Snapshot()), v).value;
                o == Returned(()) && sharedState.Snapshot() == res.next
                && sharedState.woken == old(sharedState.woken) + OptionToSeq(res.woken)
    {
      if sharedState.completed {
        return Panicked(AlreadyResolved);
      }
      sharedState.completed := true;
      sharedState.value := Some(v);
      var w := sharedState.waker;
      sharedState.waker := None;
      if w.Some? {
        sharedState.woken := sharedState.woken + [w.value];
      }
      o := Returned(());
    }

    /** `resolve`: `set_value(Ok(value))`. */
    method Resolve(value: MlBox.MlBox) returns (o: Outcome<()>)
      modifies sharedState
      ensures SetValueStep(old(sharedState.Snapshot()), Ok(value)).Panicked? ==>
                o == Panicked(AlreadyResolved) && sharedState.Snapshot() == old(sharedState.Snapshot())
                && sharedState.woken == old(sharedState.woken)
      ensures SetValueStep(old(sharedState.Snapshot()), Ok(value)).Returned? ==>
                var res := SetValueStep(old(sharedState.Snapshot()), Ok(value)).value;
                o == Returned(()) && sharedState.Snapshot() == res.next
                && sharedState.woken == old(sharedState.woken) + OptionToSeq(res.woken)
    {
      o := SetValue(Ok(value));
    }

    /** `reject`: `set_value(Err(LwtPromiseRejection(msg)))`, the message
        passed on unchanged. */
    method Reject(msg: string) returns (o: Outcome<()>)
      modifies sharedState
      ensures SetValueStep(old(sharedState.Snapshot()), Err(LwtPromiseRejection(msg))).Panicked? ==>
                o == Panicked(AlreadyResolved) && sharedState.Snapshot() == old(sharedState.Snapshot())
                && sharedState.woken == old(sharedState.woken)
      ensures SetValueStep(old(sharedState.Snapshot()), Err(LwtPromiseRejection(msg))).Returned? ==>
                var res := SetValueStep(old(sharedState.Snapshot()), Err(LwtPromiseRejection(msg))).value;
                o == Returned(()) && sharedState.Snapshot() == res.next
                && sharedState.woken == old(sharedState.woken) + OptionToSeq(res.woken)
    {
      o := SetValue(Err(LwtPromiseRejection(msg)));
    }
  }

  /** Two clones of one future: a poll through the clone before resolution
      is pending and leaves its waker; resolving through the original wakes
      exactly that waker; the clone's next poll gets the value; a second
      resolution, through either, panics. */
  method ResolveThroughClone(v: MlBox.MlBox, cx: Waker)
    returns (first: Poll<Result<MlBox.MlBox>>, woken: seq<Waker>, second: Poll<Result<MlBox.MlBox>>,
             again: Outcome<()>)
    ensures first == Pending
    ensures woken == [cx]
    ensures second == Ready(Ok(v))
    ensures again == Panicked(AlreadyResolved)
  {
    var original := new MlBoxFuture();
    var clone := new MlBoxFuture.Clone(original);
    first := clone.Poll(cx);
    var resolved := original.Resolve(v);
    woken := original.sharedState.woken;
    second := clone.Poll(cx);
    again := clone.Reject("late");
  }
}
