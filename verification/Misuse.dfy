/** What goes wrong when a fiber is scheduled that its owner does not hold: `schedule` accepts it, and the
    workers run into an assertion of `swapIn`, resume an ended fiber, or share one. */
module Misuse {
  import opened Scripts
  import opened Protocol
  import opened Invariant
  import opened Ownership
  import opened Shutdown
  import opened Stranding

  /** Worker `w` is about to search and would find nothing. */
  predicate Idles(s: State, w: nat) {
    w < |s.workers| && s.workers[w].phase == Scan && FirstFor(s, w, 0) == |s.queue|
  }

  /** The same workers and fibers, and one more entry at the end of the list. */
  ghost predicate OneMore(s: State, s': State, t: nat, pin: Pin) {
    && s'.queue == s.queue + [Entry(t, pin)] && s'.workers == s.workers
    && |s'.tasks| == |s.tasks| && forall u :: 0 <= u < |s.tasks| ==> s'.tasks[u].fiber == s.tasks[u].fiber
  }

  /** Who finds an entry still finds it; who finds none finds the new one, if it may take it. */
  lemma {:induction false} FirstWithOneMore(s: State, s': State, t: nat, pin: Pin, w: nat, i: nat)
    requires OneMore(s, s', t, pin) && i <= |s.queue|
    requires FirstFor(s, w, i) < |s.queue| || MayTake(s', Entry(t, pin), w)
    ensures FirstFor(s', w, i) == FirstFor(s, w, i)
    decreases |s.queue| - i
  {
    if i < |s.queue| && !MayTake(s, s.queue[i], w) {
      assert s'.queue[i] == s.queue[i];
      FirstWithOneMore(s, s', t, pin, w, i + 1);
    }
  }

  lemma {:induction false} TakesTheLast(s: State, s': State, w: nat, t: nat, pin: Pin)
    requires Idles(s, w) && OneMore(s, s', t, pin)
    requires t < |s.tasks| && Entitled(Entry(t, pin), w) && s.tasks[t].fiber != Some(EXEC)
    ensures Enabled(s', Search(w))
    ensures var s1 := Apply(s', Search(w));
      && |s1.workers| == |s.workers| && s1.workers == s.workers[w := s1.workers[w]]
      && s1.workers[w].phase == Picked(t)
      && |s1.tasks| == |s.tasks| && s1.tasks[t].fiber == s.tasks[t].fiber
  {
    FirstWithOneMore(s, s', t, pin, w, 0);
  }

  // Ended

  /** The next search of `w` takes an ended fiber, which is then resumed. */
  ghost predicate RunsPastItsEnd(s: State, w: nat) {
    && Enabled(s, Search(w)) && Enabled(Apply(s, Search(w)), SwapIn(w))
    && !AssertionsHold(Apply(s, Search(w)), SwapIn(w))
  }

  lemma {:induction false} EndedIsTaken(s: State, s': State, t: nat, pin: Pin, w: nat)
    requires Idles(s, w) && OneMore(s, s', t, pin) && Entitled(Entry(t, pin), w)
    requires t < |s.tasks| && Ended(s.tasks[t].fiber)
    ensures RunsPastItsEnd(s', w)
  {
    TakesTheLast(s, s', w, t, pin);
  }

  /** An ended fiber, unless it is a spare again, is taken, resumed, and runs past its end. */
  lemma {:induction false} EndedIsResumed(s: State, t: nat, pin: Pin, w: nat)
    requires Reachable(s) && t < |s.tasks| && Ended(s.tasks[t].fiber) && s.tasks[t].place != Recycled
    requires Idles(s, w) && Entitled(Entry(t, pin), w)
    ensures RunsPastItsEnd(WakeHeld(s, t, pin), w)
  {
    EndedIsTaken(s, WakeHeld(s, t, pin), t, pin, w);
  }

  // Picked up, or listed

  /** Two workers have picked up the same fiber: the later `swapIn` fails its assertion. */
  ghost predicate SecondSwapInFails(s: State, t: nat, v: nat, w: nat) {
    && v < |s.workers| && w < |s.workers|
    && s.workers[v].phase == Picked(t) && s.workers[w].phase == Picked(t)
    && Enabled(s, SwapIn(v))
    && var s1 := Apply(s, SwapIn(v));
    && Enabled(s1, SwapIn(w)) && !AssertionsHold(s1, SwapIn(w))
  }

  lemma {:induction false} BothPicked(s: State, t: nat, v: nat, w: nat)
    requires v < |s.workers| && w < |s.workers| && v != w && t < |s.tasks| && s.tasks[t].fiber.Some?
    requires s.workers[v].phase == Picked(t) && s.workers[w].phase == Picked(t)
    ensures SecondSwapInFails(s, t, v, w)
  {}

  /** A fiber that worker `v` has picked up is picked up again by `w`. */
  lemma {:induction false} PickedTwiceFails(s: State, t: nat, pin: Pin, v: nat, w: nat)
    requires Reachable(s) && t < |s.tasks| && s.tasks[t].fiber.Some?
    requires v < |s.workers| && s.workers[v].phase == Picked(t) && v != w
    requires Idles(s, w) && Entitled(Entry(t, pin), w)
    ensures var s' := WakeHeld(s, t, pin);
      Enabled(s', Search(w)) && SecondSwapInFails(Apply(s', Search(w)), t, v, w)
  {
    ReachableInv(s);
    assert HandOk(s, v);
    assert TaskOk(s, t);
    var s' := WakeHeld(s, t, pin);
    TakesTheLast(s, s', w, t, pin);
    BothPicked(Apply(s', Search(w)), t, v, w);
  }

  lemma {:induction false} TakeWithOneMore(s: State, s': State, t: nat, pin: Pin, v: nat, k: nat)
    requires OneMore(s, s', t, pin) && v < |s.workers| && k < |s.queue| && s.queue[k].task < |s.tasks|
    ensures OneMore(Take(s, v, k), Take(s', v, k), t, pin)
  {}

  lemma {:induction false} StillNothing(s: State, s': State, w: nat, k: nat, i: nat)
    requires k < |s.queue| && i <= |s'.queue| && s'.queue == s.queue[..k] + s.queue[k + 1..]
    requires FirstFor(s, w, 0) == |s.queue|
    requires |s'.tasks| == |s.tasks| && forall t :: 0 <= t < |s.tasks| ==> s'.tasks[t].fiber == s.tasks[t].fiber
    ensures FirstFor(s', w, i) == |s'.queue|
    decreases |s'.queue| - i
  {
    if i < |s'.queue| {
      assert s'.queue[i] == s.queue[if i < k then i else i + 1];
      assert !MayTake(s, s'.queue[i], w);
      StillNothing(s, s', w, k, i + 1);
    }
  }

  /** The fiber that worker `v` is going to take off the list is scheduled again: `v` takes one of its
      entries and `w`, which finds nothing else, the other. */
  lemma {:induction false} ListedTwiceFails(s: State, t: nat, pin: Pin, v: nat, w: nat)
    requires Reachable(s) && t < |s.tasks| && s.tasks[t].fiber.Some?
    requires v != w && Enabled(s, Search(v))
    requires FirstFor(s, v, 0) < |s.queue| && s.queue[FirstFor(s, v, 0)].task == t
    requires (Idles(s, w) || Idles(Apply(s, Search(v)), w)) && Entitled(Entry(t, pin), w)
    ensures var s' := WakeHeld(s, t, pin);
      && Enabled(s', Search(v)) && Enabled(Apply(s', Search(v)), Search(w))
      && SecondSwapInFails(Apply(Apply(s', Search(v)), Search(w)), t, v, w)
  {
    var s', k := WakeHeld(s, t, pin), FirstFor(s, v, 0);
    var s1, s1' := Take(s, v, k), Take(s', v, k);
    FirstWithOneMore(s, s', t, pin, v, 0);
    TakeWithOneMore(s, s', t, pin, v, k);
    if Idles(s, w) {
      StillNothing(s, s1, w, k, 0);
    }
    TakesTheLast(s1, s1', w, t, pin);
    BothPicked(Apply(s1', Search(w)), t, v, w);
  }

  // Running, or about to be put down

  /** Worker `w` takes and runs the fiber that `v` has not put down yet; `v` then marks it HOLD, so that it
      counts as held while it runs. */
  ghost predicate SharedWhileRunning(s: State, t: nat, v: nat, w: nat) {
    && Enabled(s, Search(w))
    && var s1 := Apply(s, Search(w));
    && Enabled(s1, SwapIn(w))
    && var s2 := Apply(s1, SwapIn(w));
    && var s3 := if Enabled(s2, Uncount(v)) then Apply(s2, Uncount(v)) else s2;
    && Enabled(s3, Settle(v))
    && var s4 := Apply(s3, Settle(v));
    && w < |s4.workers| && s4.workers[w].phase == Running(t)
    && t < |s4.tasks| && s4.tasks[t].fiber == Some(HOLD)
  }

  lemma {:induction false} SettlesARunningFiber(s: State, t: nat, v: nat, w: nat)
    requires v < |s.workers| && w < |s.workers| && v != w && t < |s.tasks| && s.tasks[t].fiber == Some(EXEC)
    requires s.workers[v].phase == Uncounted(t) && s.workers[w].phase == Running(t)
    ensures Enabled(s, Settle(v))
    ensures var s' := Apply(s, Settle(v));
      && w < |s'.workers| && s'.workers[w].phase == Running(t)
      && t < |s'.tasks| && s'.tasks[t].fiber == Some(HOLD)
  {}

  lemma {:induction false} TakenFromTheHand(s: State, s': State, t: nat, pin: Pin, v: nat, w: nat)
    requires Idles(s, w) && OneMore(s, s', t, pin) && Entitled(Entry(t, pin), w)
    requires t < |s.tasks| && (s.tasks[t].fiber == Some(HOLD) || s.tasks[t].fiber == Some(READY))
    requires v < |s.workers| && v != w
    requires s.workers[v].phase == Returned(t) || s.workers[v].phase == Uncounted(t)
    ensures SharedWhileRunning(s', t, v, w)
  {
    TakesTheLast(s, s', w, t, pin);
    var s1 := Apply(s', Search(w));
    var s2 := Apply(s1, SwapIn(w));
    assert s2.workers[v] == s.workers[v] && s2.workers[w].phase == Running(t) && s2.tasks[t].fiber == Some(EXEC);
    var s3 := if Enabled(s2, Uncount(v)) then Apply(s2, Uncount(v)) else s2;
    SettlesARunningFiber(s3, t, v, w);
  }

  /** Scheduled after it has yielded, READY or HOLD, and before its worker has put it down. */
  lemma {:induction false} YieldedIsShared(s: State, t: nat, pin: Pin, v: nat, w: nat)
    requires Reachable(s) && t < |s.tasks| && (s.tasks[t].fiber == Some(HOLD) || s.tasks[t].fiber == Some(READY))
    requires v < |s.workers| && (s.workers[v].phase == Returned(t) || s.workers[v].phase == Uncounted(t)) && v != w
    requires Idles(s, w) && Entitled(Entry(t, pin), w)
    ensures SharedWhileRunning(WakeHeld(s, t, pin), t, v, w)
  {
    TakenFromTheHand(s, WakeHeld(s, t, pin), t, pin, v, w);
  }

  lemma {:induction false} StillIdles(s: State, s': State, w: nat, i: nat)
    requires s'.queue == s.queue && i <= |s.queue| && FirstFor(s, w, i) == |s.queue| && |s'.tasks| == |s.tasks|
    requires forall j :: 0 <= j < |s.queue| && s.queue[j].task < |s.tasks| ==>
      s'.tasks[s.queue[j].task].fiber == s.tasks[s.queue[j].task].fiber
    ensures FirstFor(s', w, i) == |s.queue|
    decreases |s.queue| - i
  {
    if i < |s.queue| {
      assert !MayTake(s', s'.queue[i], w);
      StillIdles(s, s', w, i + 1);
    }
  }

  /** Task `t` is about to stop: it yields or ends. */
  predicate AboutToStop(s: State, t: nat) {
    t < |s.tasks| && !s.tasks[t].script.Spawn? && !s.tasks[t].script.Wake?
  }

  /** The task has stopped in state `st`; list and other tasks are as before. */
  ghost predicate StoppedIn(s: State, s1: State, t: nat, v: nat, st: FiberState) {
    && v < |s.workers| && s1.queue == s.queue
    && s1.workers == s.workers[v := s.workers[v].(phase := Returned(t))]
    && |s1.tasks| == |s.tasks| && t < |s.tasks| && s1.tasks[t].fiber == Some(st)
    && forall u :: 0 <= u < |s.tasks| && u != t ==> s1.tasks[u] == s.tasks[u]
  }

  lemma {:induction false} SwapsOut(s: State, v: nat, t: nat, rest: Script, st: FiberState)
    requires v < |s.workers| && t < |s.tasks|
    ensures StoppedIn(s, SwapOut(s, v, t, rest, st), t, v, st)
  {}

  function StateAt(script: Script): FiberState {
    match script
    case YieldReady(_) => READY
    case YieldHold(_) => HOLD
    case Throw => EXCEPT
    case _ => TERM
  }

  lemma {:induction false} StopsIn(s: State, v: nat, t: nat)
    requires v < |s.workers| && AboutToStop(s, t)
    ensures StoppedIn(s, DoAct(s, v, t), t, v, StateAt(s.tasks[t].script))
  {
    match s.tasks[t].script
    case Finish => SwapsOut(s, v, t, Finish, TERM);
    case Throw => SwapsOut(s, v, t, Throw, EXCEPT);
    case YieldReady(rest) => SwapsOut(s, v, t, rest, READY);
    case YieldHold(rest) => SwapsOut(s, v, t, rest, HOLD);
  }

  lemma {:induction false} StopsBesideOneMore(s: State, t: nat, pin: Pin, v: nat)
    requires v < |s.workers| && AboutToStop(s, t)
    ensures OneMore(DoAct(s, v, t), DoAct(WakeHeld(s, t, pin), v, t), t, pin)
  {
    StopsIn(s, v, t);
    StopsIn(WakeHeld(s, t, pin), v, t);
  }

  /** A search that finds nothing still finds nothing if the new entry's fiber is executing. */
  lemma {:induction false} ExecutingIsPassedOver(s: State, s': State, t: nat, pin: Pin, w: nat, i: nat)
    requires OneMore(s, s', t, pin) && t < |s.tasks| && s.tasks[t].fiber == Some(EXEC)
    requires i <= |s.queue| && FirstFor(s, w, i) == |s.queue|
    ensures FirstFor(s', w, i) == |s'.queue|
    decreases |s.queue| - i
  {
    if i < |s.queue| {
      assert s'.queue[i] == s.queue[i] && !MayTake(s', s'.queue[i], w);
      ExecutingIsPassedOver(s, s', t, pin, w, i + 1);
    } else {
      assert !MayTake(s', s'.queue[i], w) && FirstFor(s', w, i + 1) == i + 1;
    }
  }

  /** Scheduled while it runs: searches pass over it until it stops, and then it is taken from its worker's
      hand, and resumed past its end if it has ended. */
  lemma {:induction false} RunningIsShared(s: State, t: nat, pin: Pin, v: nat, w: nat)
    requires Reachable(s) && v < |s.workers| && s.workers[v].phase == Running(t) && AboutToStop(s, t)
    requires v != w && Idles(s, w) && Entitled(Entry(t, pin), w)
    ensures FirstFor(WakeHeld(s, t, pin), w, 0) == |WakeHeld(s, t, pin).queue|
    ensures var s' := WakeHeld(s, t, pin);
      && Enabled(s', Act(v))
      && var s1 := Apply(s', Act(v));
      && t < |s1.tasks|
      && (if Ended(s1.tasks[t].fiber) then RunsPastItsEnd(s1, w) else SharedWhileRunning(s1, t, v, w))
  {
    ReachableInv(s);
    assert HandOk(s, v) && TaskOk(s, t);
    var s' := WakeHeld(s, t, pin);
    ExecutingIsPassedOver(s, s', t, pin, w, 0);
    var sb, s1 := DoAct(s, v, t), DoAct(s', v, t);
    StopsIn(s, v, t);
    StopsBesideOneMore(s, t, pin, v);
    StillIdles(s, sb, w, 0);
    if Ended(s1.tasks[t].fiber) {
      EndedIsTaken(sb, s1, t, pin, w);
    } else {
      TakenFromTheHand(sb, s1, t, pin, v, w);
    }
  }

  // What does not suffice

  /** `getState() == HOLD` does not license `schedule`: a worker may still have the fiber in its hand. */
  lemma {:induction false} HoldIsNotEnough()
    ensures exists s :: Reachable(s) && |s.tasks| == 1 && s.tasks[0].fiber == Some(HOLD) && !Waiting(s, 0)
  {
    Started();
    var s0 := Snapshot([], [], Scan, Scan, INIT, 0, 0, false, [], []);
    ReachableStep(s0, Submit(YieldHold(Finish), false, Any));
    var s1 := Snapshot([FIRST], First(YieldHold(Finish), INIT, InList), Scan, Scan, INIT, 0, 0, false, [FIRST], []);
    assert NewTask(s0, YieldHold(Finish), false, Any) == s1;
    ReachableStep(s1, Search(0));
    assert FirstFor(s1, 0, 0) == 0;
    var s2 := Snapshot([], First(YieldHold(Finish), INIT, InHand(0)), Picked(0), Scan, INIT, 1, 0,
                       false, [FIRST], [FIRST]);
    assert Take(s1, 0, 0) == s2;
    HoldInHand(s2);
  }

  lemma {:induction false} HoldInHand(s: State)
    requires s == Snapshot([], First(YieldHold(Finish), INIT, InHand(0)), Picked(0), Scan, INIT, 1,
                           0, false, [FIRST], [FIRST])
    requires Reachable(s)
    ensures exists s' :: Reachable(s') && |s'.tasks| == 1 && s'.tasks[0].fiber == Some(HOLD) && !Waiting(s', 0)
  {
    ReachableStep(s, SwapIn(0));
    var s1 := Snapshot([], First(YieldHold(Finish), EXEC, InHand(0)), Running(0), Scan, INIT, 1, 0,
                       false, [FIRST], [FIRST]);
    assert Apply(s, SwapIn(0)) == s1;
    ReachableStep(s1, Act(0));
    var s2 := Snapshot([], First(Finish, HOLD, InHand(0)), Returned(0), Scan, INIT, 1, 0, false, [FIRST], [FIRST]);
    assert Apply(s1, Act(0)) == s2;
    assert Holds(s2.workers[0], 0);
  }
}
