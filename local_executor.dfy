/** `src/local_executor.rs`: a thread-local executor with a FIFO run queue,
    a slab of the wakers of unfinished tasks, and an optional notifier that
    tells the outer event loop when something was scheduled. A task is seen
    through its `Runnable`: the slab key its `CallOnDrop` guard frees and
    the notifier its schedule function captured at spawn time. Notifiers
    are identified by a number and their `notify` calls are logged. */
module LocalExecutor {
  import opened Base

  type NotifierId = nat

  /** A task's runnable (and the waker stored for it in the slab). */
  datatype Runnable = Runnable(key: nat, notifier: Option<NotifierId>)

  /** What polling a task's future once did: it finished, or it is still
      pending, having possibly woken itself while it ran. */
  datatype RunResult = StillPending(wokeItself: bool) | Finished

  /** `slab::Slab<Waker>`: the occupied entries, the free list (the most
      recently freed slot last), and the number of slots ever allocated. */
  datatype Slab = Slab(entries: map<nat, Runnable>, free: seq<nat>, slots: nat)

  /** `Slab::new()`, and what `drain` leaves behind. */
  const EmptySlab := Slab(map[], [], 0)

  /** Every slot below `slots` is either occupied or on the free list, once. */
  ghost predicate SlabValid(s: Slab)
  {
    && (forall k :: k in s.entries ==> k < s.slots)
    && (forall i :: 0 <= i < |s.free| ==> s.free[i] < s.slots && s.free[i] !in s.entries)
    && (forall i, j :: 0 <= i < j < |s.free| ==> s.free[i] != s.free[j])
    && (forall k :: 0 <= k < s.slots ==> k in s.entries || k in s.free)
  }

  /** `vacant_entry().key()`: the most recently freed slot, or a new one. */
  function Vacant(s: Slab): (k: nat)
    requires SlabValid(s)
    ensures k !in s.entries
    ensures k <= s.slots
  {
    if s.free == [] then s.slots else s.free[|s.free| - 1]
  }

  /** `insert`: stores `v` at the vacant key. */
  function Insert(s: Slab, v: Runnable): (s': Slab)
    requires SlabValid(s)
    ensures SlabValid(s')
    ensures s'.entries == s.entries[Vacant(s) := v]
  {
    if s.free == [] then Slab(s.entries[s.slots := v], [], s.slots + 1)
    else Slab(s.entries[s.free[|s.free| - 1] := v], s.free[..|s.free| - 1], s.slots)
  }

  /** `try_remove`: frees an occupied slot, and does nothing to a free one. */
  function TryRemove(s: Slab, k: nat): (s': Slab)
    requires SlabValid(s)
    ensures SlabValid(s')
    ensures s'.entries == s.entries - {k}
  {
    if k in s.entries then Slab(s.entries - {k}, s.free + [k], s.slots) else s
  }

  /** A freed slot is the next one handed out. */
  lemma RemoveThenVacantReuses(s: Slab, k: nat)
    requires SlabValid(s) && k in s.entries
    ensures Vacant(TryRemove(s, k)) == k
  {
  }

  /** Without removals the keys are handed out densely: 0, 1, 2, ... */
  lemma {:induction false} InsertionsAreDense(vs: seq<Runnable>)
    ensures SlabValid(InsertAll(EmptySlab, vs))
    ensures forall k: nat :: k in InsertAll(EmptySlab, vs).entries <==> k < |vs|
    ensures InsertAll(EmptySlab, vs).free == [] && InsertAll(EmptySlab, vs).slots == |vs|
    decreases |vs|
  {
    if vs != [] {
      InsertionsAreDense(vs[..|vs| - 1]);
      var s := InsertAll(EmptySlab, vs[..|vs| - 1]);
      assert Vacant(s) == |vs| - 1;
    }
  }

  /** Inserts `vs` in order. */
  function InsertAll(s: Slab, vs: seq<Runnable>): (s': Slab)
    requires SlabValid(s)
    ensures SlabValid(s')
    decreases |vs|
  {
    if vs == [] then s else Insert(InsertAll(s, vs[..|vs| - 1]), vs[|vs| - 1])
  }

  /** The keys of the tasks in `m` that captured a notifier. */
  function NotifyingKeys(m: map<nat, Runnable>): set<nat>
  {
    set k | k in m && m[k].notifier.Some?
  }

  /** Taking one task out of `m` takes its key out of `NotifyingKeys`. */
  lemma NotifyingKeysRemove(m: map<nat, Runnable>, k: nat)
    requires k in m
    ensures |NotifyingKeys(m)| == |NotifyingKeys(m - {k})| + (if m[k].notifier.Some? then 1 else 0)
  {
    if m[k].notifier.Some? {
      assert NotifyingKeys(m - {k}) == NotifyingKeys(m) - {k};
    } else {
      assert NotifyingKeys(m - {k}) == NotifyingKeys(m);
    }
  }

  /** The keys of the tasks in `m` that captured the notifier `n`. */
  function Capturing(m: map<nat, Runnable>, n: NotifierId): set<nat>
  {
    set k | k in m && m[k].notifier == Some(n)
  }

  /** Taking one task out of `m` takes its key out of `Capturing` for the
      notifier it captured, and for no other. */
  lemma CapturingRemove(m: map<nat, Runnable>, k: nat, n: NotifierId)
    requires k in m
    ensures |Capturing(m, n)| == |Capturing(m - {k}, n)| + (if m[k].notifier == Some(n) then 1 else 0)
  {
    if m[k].notifier == Some(n) {
      assert Capturing(m - {k}, n) == Capturing(m, n) - {k};
    } else {
      assert Capturing(m - {k}, n) == Capturing(m, n);
    }
  }

  /** Every task in `m` sits at its own key, so taking out the task at
      `k` takes exactly that one runnable out of the map's values. */
  lemma KeyedValuesRemove(m: map<nat, Runnable>, k: nat)
    requires k in m && forall j :: j in m ==> m[j].key == j
    ensures multiset(m.Values) == multiset((m - {k}).Values) + multiset{m[k]}
  {
    var rest := (m - {k}).Values;
    forall v | v in m.Values
      ensures v in rest + {m[k]}
    {
      var j :| j in m && m[j] == v;
      if j != k {
        assert (m - {k})[j] == v;
      }
    }
    forall v | v in rest
      ensures v in m.Values
    {
      var j :| j in m - {k} && (m - {k})[j] == v;
      assert m[j] == v;
    }
    assert m.Values == rest + {m[k]};
    assert m[k] !in rest;
  }

  /** Waking the active tasks `all` one at a time: the tasks `toWake` are
      still to be woken, `queued` holds the runnables scheduled so far and
      `sent` the notifications sent so far. Together they account for every
      task once and for every captured notifier once per task. */
  ghost predicate WakeProgress(all: map<nat, Runnable>, toWake: map<nat, Runnable>,
                               queued: seq<Runnable>, sent: seq<NotifierId>)
  {
    && toWake.Keys <= all.Keys
    && (forall k :: k in toWake ==> toWake[k] == all[k] && toWake[k].key == k)
    && |queued| + |toWake| == |all|
    && multiset(queued) + multiset(toWake.Values) == multiset(all.Values)
    && |sent| + |NotifyingKeys(toWake)| == |NotifyingKeys(all)|
    && forall n :: multiset(sent)[n] + |Capturing(toWake, n)| == |Capturing(all, n)|
  }

  /** Waking the task at `k` moves it from `toWake` to `queued`, and its
      captured notifier, if any, to `sent`. */
  lemma WakeProgressStep(all: map<nat, Runnable>, toWake: map<nat, Runnable>,
                         queued: seq<Runnable>, sent: seq<NotifierId>, k: nat)
    requires WakeProgress(all, toWake, queued, sent) && k in toWake
    ensures WakeProgress(all, toWake - {k}, queued + [toWake[k]], sent + OptionToSeq(toWake[k].notifier))
  {
    NotifyingKeysRemove(toWake, k);
    forall n {
      CapturingRemove(toWake, k, n);
    }
    KeyedValuesRemove(toWake, k);
  }

  /** Once nothing is left to wake, `queued` holds exactly the runnables of
      `all` and `sent` exactly their captured notifiers. */
  lemma WakeProgressDone(all: map<nat, Runnable>, queued: seq<Runnable>, sent: seq<NotifierId>)
    requires WakeProgress(all, map[], queued, sent)
    ensures |queued| == |all| && multiset(queued) == multiset(all.Values)
    ensures |sent| == |NotifyingKeys(all)|
    ensures forall n :: multiset(sent)[n] == |Capturing(all, n)|
  {
    var none: map<nat, Runnable> := map[];
    assert none.Values == {};
    assert NotifyingKeys(none) == {};
    forall n
      ensures multiset(sent)[n] == |Capturing(all, n)|
    {
      assert Capturing(none, n) == {};
    }
  }

  class LocalExecutor {
    /** `State::queue`, front first. */
    var queue: seq<Runnable>
    /** `State::notifier`. */
    var notifier: Option<NotifierId>
    /** `State::active`. */
    var active: Slab
    /** Every `notify()` call so far, in order. */
    var notified: seq<NotifierId>

    /** The slab is well formed and every waker sits at its task's key. */
    ghost predicate Valid()
      reads this
    {
      SlabValid(active) && forall k :: k in active.entries ==> active.entries[k].key == k
    }

    /** `LocalExecutor::new`: empty queue, no notifier, no active tasks. */
    constructor ()
      ensures Valid()
      ensures queue == [] && notifier == None && active == EmptySlab && notified == []
    {
      queue, notifier, active, notified := [], None, EmptySlab, [];
    }

    /** `set_notifier`: replaces the notifier; tasks already spawned keep
        the one they captured. */
    method SetNotifier(n: NotifierId)
      modifies this
      ensures notifier == Some(n)
      ensures queue == old(queue) && active == old(active) && notified == old(notified)
    {
      notifier := Some(n);
    }

    /** `is_empty`: no unfinished task. */
    function IsEmpty(): (b: bool)
      reads this
      ensures b <==> active.entries == map[]
    {
      active.entries == map[]
    }

    /** The schedule function of a task: pushes its runnable to the back of
        the queue, then calls the captured notifier once, if there is one. */
    method Schedule(r: Runnable)
      modifies this
      ensures queue == old(queue) + [r]
      ensures notified == old(notified) + OptionToSeq(r.notifier)
      ensures active == old(active) && notifier == old(notifier)
    {
      queue := queue + [r];
      match r.notifier
      case Some(n) => notified := notified + [n];
      case None =>
    }

    /** `spawn`: stores the new task's waker at the slab's vacant key,
        capturing the current notifier, and schedules the task once. */
    method Spawn() returns (key: nat)
      requires Valid()
      modifies this
      ensures Valid() && !IsEmpty()
      ensures key == Vacant(old(active)) && key !in old(active.entries)
      ensures active == Insert(old(active), Runnable(key, old(notifier)))
      ensures queue == old(queue) + [Runnable(key, old(notifier))]
      ensures notified == old(notified) + OptionToSeq(old(notifier))
      ensures notifier == old(notifier)
    {
      key := Vacant(active);
      var r := Runnable(key, notifier);
      active := Insert(active, r);
      assert key in active.entries;
      Schedule(r);
    }

    /** The `CallOnDrop` guard of the task at `key`, run when its future
        finishes or is dropped: frees the slot if it is still occupied. */
    method TaskDone(key: nat)
      requires Valid()
      modifies this
      ensures Valid()
      ensures active == TryRemove(old(active), key)
      ensures queue == old(queue) && notifier == old(notifier) && notified == old(notified)
    {
      active := TryRemove(active, key);
    }

    /** `try_tick`: on an empty queue returns false and changes nothing;
        otherwise pops the front task and polls it once, `run` being what
        that poll did, and returns true. */
    method TryTick(run: RunResult) returns (ran: bool)
      requires Valid()
      modifies this
      ensures Valid() && notifier == old(notifier)
      ensures ran <==> old(queue) != []
      ensures !ran ==> queue == old(queue) && active == old(active) && notified == old(notified)
      ensures ran && run.Finished? ==>
                queue == old(queue)[1..] && active == TryRemove(old(active), old(queue)[0].key)
                && notified == old(notified)
      ensures ran && run == StillPending(false) ==>
                queue == old(queue)[1..] && active == old(active) && notified == old(notified)
      ensures ran && run == StillPending(true) ==>
                queue == old(queue)[1..] + [old(queue)[0]] && active == old(active)
                && notified == old(notified) + OptionToSeq(old(queue)[0].notifier)
    {
      if queue == [] {
        return false;
      }
      var runnable := queue[0];
      queue := queue[1..];
      ran := true;
      match run
      case Finished => TaskDone(runnable.key);
      case StillPending(wokeItself) =>
        if wokeItself {
          Schedule(runnable);
        }
    }

    /** The first half of `Drop for LocalExecutor`: wakes every active task
        once, which schedules it and calls the notifier it captured. The
        notifications sent are exactly the captured notifiers of the active
        tasks, one each, and every active task is appended to the queue. */
    method WakeActive()
      requires Valid()
      modifies this
      ensures Valid()
      ensures active == old(active) && notifier == old(notifier)
      ensures |old(queue)| <= |queue| && queue[..|old(queue)|] == old(queue)
      ensures |queue| == |old(queue)| + |old(active).entries|
      ensures multiset(queue[|old(queue)|..]) == multiset(old(active).entries.Values)
      ensures |notified| == |old(notified)| + |NotifyingKeys(old(active).entries)|
      ensures notified[..|old(notified)|] == old(notified)
      ensures forall n :: multiset(notified[|old(notified)|..])[n] == |Capturing(old(active).entries, n)|
    {
      var toWake := active.entries;
      ghost var all := active.entries;
      ghost var queued: seq<Runnable> := [];
      ghost var sent: seq<NotifierId> := [];
      while toWake != map[]
        invariant WakeProgress(all, toWake, queued, sent)
        invariant queue == old(queue) + queued && notified == old(notified) + sent
        invariant active == old(active) && notifier == old(notifier)
        decreases |toWake|
      {
        var k :| k in toWake;
        WakeProgressStep(all, toWake, queued, sent, k);
        Schedule(toWake[k]);
        assert old(queue) + queued + [toWake[k]] == old(queue) + (queued + [toWake[k]]);
        ghost var woken := OptionToSeq(toWake[k].notifier);
        assert old(notified) + sent + woken == old(notified) + (sent + woken);
        queued := queued + [toWake[k]];
        sent := sent + woken;
        toWake := toWake - {k};
      }
      WakeProgressDone(all, queued, sent);
      assert queue[|old(queue)|..] == queued;
      assert notified[|old(notified)|..] == sent;
    }

    /** `Drop for LocalExecutor`: wakes every active task once (see
        `WakeActive`), empties the slab, then pops the queue until it is
        empty. */
    method Drop()
      requires Valid()
      modifies this
      ensures Valid()
      ensures active == EmptySlab && queue == [] && notifier == old(notifier)
      ensures |notified| == |old(notified)| + |NotifyingKeys(old(active).entries)|
      ensures notified[..|old(notified)|] == old(notified)
      ensures forall n :: multiset(notified[|old(notified)|..])[n] == |Capturing(old(active).entries, n)|
    {
      WakeActive();
      active := EmptySlab;
      ghost var sent := notified;
      while queue != []
        invariant active == EmptySlab && notifier == old(notifier) && notified == sent
        decreases |queue|
      {
        queue := queue[1..];
      }
    }
  }

  /** The notifier is captured when a task is spawned: a task spawned before
      `set_notifier` keeps notifying the old one when it wakes itself, and a
      task spawned after notifies the new one. */
  method NotifierCapturedAtSpawn(n1: NotifierId, n2: NotifierId) returns (log: seq<NotifierId>)
    ensures log == [n1, n1, n2]
  {
    var ex := new LocalExecutor();
    ex.SetNotifier(n1);
    var first := ex.Spawn();
    ex.SetNotifier(n2);
    var ran := ex.TryTick(StillPending(true));
    var second := ex.Spawn();
    log := ex.notified;
  }

  /** Keys are handed out densely, and the key of a finished task is the
      next one reused. */
  method FinishedKeyIsReused() returns (first: nat, second: nat, third: nat)
    ensures first == 0 && second == 1 && third == 0
  {
    var ex := new LocalExecutor();
    first := ex.Spawn();
    second := ex.Spawn();
    var ran := ex.TryTick(Finished);
    third := ex.Spawn();
  }
}
