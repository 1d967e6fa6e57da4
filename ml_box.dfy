/** `src/ml_box.rs`, the earlier home of `MlBox` and of the first copy of
    `MlBoxFuture`. The future here is the same state machine as in
    `src/ml_box_future.rs`; both classes are proved against the step
    functions of `SharedFuture`. */
module MlBox {
  import opened Base
  import opened Ocaml
  import opened SharedFuture
  import Util

  /** `MlBox(ocaml::root::Root)`: an OCaml value kept alive by a GC root. */
  datatype MlBox = MlBox(root: BoxRoot)

  /** `MlBox::new`: keeps the root of a rooted value, roots a raw one. */
  function New(v: Value): (b: MlBox)
    ensures v.Root? ==> b.root == v.root
    ensures b.root.target == Denotation(v)
  {
    match v
    case Raw(x) => MlBox(BoxRoot(x))
    case Root(r) => MlBox(r)
  }

  /** `MlBox::into_value`: the held root as a rooted value. */
  function IntoValue(b: MlBox): (v: Value)
    ensures v.Root? && v.root == b.root
  {
    Root(b.root)
  }

  /** Boxing the value a box gives back yields the same box. */
  lemma NewIntoValue(b: MlBox)
    ensures New(IntoValue(b)) == b
  {
  }

  /** Boxing and unboxing a value is `ensure_rooted_value`. */
  lemma IntoValueNew(v: Value)
    ensures IntoValue(New(v)) == Util.EnsureRootedValue(v)
  {
  }

  /** `MlBoxFutureSharedState` of this file; `woken` records every waker
      `set_value` woke. */
  class MlBoxFutureSharedState {
    var value: Option<Result<MlBox>>
    var waker: Option<Waker>
    var completed: bool
    var woken: seq<Waker>

    function Snapshot(): State<MlBox>
      reads this
    {
      State(value, waker, completed)
    }

    constructor ()
      ensures Snapshot() == Initial() && woken == []
    {
      value, waker, completed := None, None, false;
      woken := [];
    }
  }

  class MlBoxFuture {
    const sharedState: MlBoxFutureSharedState

    /** `MlBoxFuture::new`: no value, no waker, not completed. */
    constructor ()
      ensures fresh(sharedState)
      ensures sharedState.Snapshot() == Initial() && sharedState.woken == []
    {
      sharedState := new MlBoxFutureSharedState();
    }

    /** `Future::poll`: takes a present value, or stores `cx` and is pending. */
    method Poll(cx: Waker) returns (p: Poll<Result<MlBox>>)
      modifies sharedState
      ensures (sharedState.Snapshot(), p) == PollStep(old(sharedState.Snapshot()), cx)
      ensures sharedState.woken == old(sharedState.woken)
    {
      var taken := sharedState.value;
      sharedState.value := None;
      if taken.Some? {
        p := Ready(taken.value);
      } else {
        sharedState.waker := Some(cx);
        p := Pending;
      }
    }

    /** `set_value`: panics when completed; otherwise completes, stores the
        value, then takes and wakes the waker. */
    method SetValue(v: Result<MlBox>) returns (o: Outcome<()>)
      modifies sharedState
      ensures SetValueStep(old(sharedState.Snapshot()), v).Panicked? ==>
                o == Panicked(AlreadyResolved) && sharedState.Snapshot() == old(sharedState.Snapshot())
                && sharedState.woken == old(sharedState.woken)
      ensures SetValueStep(old(sharedState.Snapshot()), v).Returned? ==>
                var res := SetValueStep(old(sharedState.Snapshot()), v).value;
                o == Returned(()) && sharedState.Snapshot() == res.next
                && sharedState.woken == old(sharedState.woken) + OptionToSeq(res.woken)
    {
      if sharedState.completed {
        return Panicked(AlreadyResolved);
      }
      sharedState.completed := true;
      sharedState.value := Some(v);
      var w := sharedState.waker;
      sharedState.waker := None;
      sharedState.woken := sharedState.woken + OptionToSeq(w);
      o := Returned(());
    }

    /** `resolve`: `set_value(Ok(value))`. */
    method Resolve(value: MlBox) returns (o: Outcome<()>)
      modifies sharedState
      ensures SetValueStep(old(sharedState.Snapshot()), Ok(value)).Panicked? ==>
                o == Panicked(AlreadyResolved) && sharedState.Snapshot() == old(sharedState.Snapshot())
                && sharedState.woken == old(sharedState.woken)
      ensures SetValueStep(old(sharedState.Snapshot()), Ok(value)).Returned? ==>
                var res := SetValueStep(old(sharedState.Snapshot()), Ok(value)).value;
                o == Returned(()) && sharedState.Snapshot() == res.next
                && sharedState.woken == old(sharedState.woken) + OptionToSeq(res.woken)
    {
      o := SetValue(Ok(value));
    }

    /** `reject`: `set_value(Err(LwtPromiseRejection(msg)))`. */
    method Reject(msg: string) returns (o: Outcome<()>)
      modifies sharedState
      ensures SetValueStep(old(sharedState.Snapshot()), Err(LwtPromiseRejection(msg))).Panicked? ==>
                o == Panicked(AlreadyResolved) && sharedState.Snapshot() == old(sharedState.Snapshot())
                && sharedState.woken == old(sharedState.woken)
      ensures SetValueStep(old(sharedState.Snapshot()), Err(LwtPromiseRejection(msg))).Returned? ==>
                var res := SetValueStep(old(sharedState.Snapshot()), Err(LwtPromiseRejection(msg))).value;
                o == Returned(()) && sharedState.Snapshot() == res.next
                && sharedState.woken == old(sharedState.woken) + OptionToSeq(res.woken)
    {
      o := SetValue(Err(LwtPromiseRejection(msg)));
    }
  }
}
