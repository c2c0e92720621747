/** Runs in which an entry is left behind: the exceptions that `Progress.TakenIff` leaves open do happen. */
module Stranding {
  import opened Scripts
  import opened Protocol
  import opened Invariant
  import opened Ownership
  import opened Shutdown

  /** Schedules a callback on worker 1 once it has yielded and been resumed. */
  const LATE := Spawn(Finish, true, OnThread(1), Finish)

  const FIRST := Entry(0, Any)

  /** Two worker threads; worker 1's idle fiber is in state `idle1`. */
  function Snapshot(queue: seq<Entry>, task: seq<Task>, p0: Phase, p1: Phase, idle1: FiberState,
                    active: int, idle: int, stop: bool, log: seq<Entry>, taken: seq<Entry>): State
  {
    State(queue, task, [Worker(p0, INIT, NoSpare), Worker(p1, idle1, NoSpare)], false, active, idle,
          true, stop, stop, log, taken)
  }

  function First(script: Script, st: FiberState, place: Place): seq<Task> { [Task(script, Some(st), place)] }

  lemma {:induction false} Started()
    ensures Reachable(Snapshot([], [], Scan, Scan, INIT, 0, 0, false, [], []))
  {
    var s0 := Init(2, false);
    InitReachable(2, false);
    assert s0.workers == [NewWorker(), NewWorker()];
    ReachableStep(s0, Start);
    var s1 := Apply(s0, Start);
    ReachableStep(s1, Begin(0));
    var s2 := Apply(s1, Begin(0));
    ReachableStep(s2, Begin(1));
    assert Apply(s2, Begin(1)) == Snapshot([], [], Scan, Scan, INIT, 0, 0, false, [], []);
  }

  lemma {:induction false} FirstListed()
    ensures Reachable(Snapshot([FIRST], First(YieldReady(LATE), INIT, InList), Scan, Scan, INIT, 0,
                               0, false, [FIRST], []))
  {
    Started();
    var s0 := Snapshot([], [], Scan, Scan, INIT, 0, 0, false, [], []);
    ReachableStep(s0, Submit(YieldReady(LATE), false, Any));
    var s1 := NewTask(s0, YieldReady(LATE), false, Any);
    assert s1.tasks == First(YieldReady(LATE), INIT, InList) && s1.queue == [FIRST] && s1.enqueued == [FIRST];
  }

  lemma {:induction false} FirstTaken()
    ensures Reachable(Snapshot([], First(YieldReady(LATE), INIT, InHand(0)), Picked(0), Scan, INIT,
                               1, 0, false, [FIRST], [FIRST]))
  {
    FirstListed();
    var s1 := Snapshot([FIRST], First(YieldReady(LATE), INIT, InList), Scan, Scan, INIT, 0, 0, false, [FIRST], []);
    ReachableStep(s1, Search(0));
    assert FirstFor(s1, 0, 0) == 0;
    var s2 := Take(s1, 0, 0);
    assert s2.queue == [] && s2.dispatched == [FIRST];
    assert s2.workers == [Worker(Picked(0), INIT, NoSpare), Worker(Scan, INIT, NoSpare)];
    assert s2.tasks == First(YieldReady(LATE), INIT, InHand(0));
  }

  lemma {:induction false} FirstUncounted()
    ensures Reachable(Snapshot([], First(LATE, READY, InHand(0)), Uncounted(0), Scan, INIT, 0, 0,
                               false, [FIRST], [FIRST]))
  {
    FirstTaken();
    var s0 := Snapshot([], First(YieldReady(LATE), INIT, InHand(0)), Picked(0), Scan, INIT, 1, 0,
                       false, [FIRST], [FIRST]);
    ReachableStep(s0, SwapIn(0));
    var s1 := Snapshot([], First(YieldReady(LATE), EXEC, InHand(0)), Running(0), Scan, INIT, 1, 0,
                       false, [FIRST], [FIRST]);
    assert Apply(s0, SwapIn(0)) == s1;
    ReachableStep(s1, Act(0));
    var s2 := Snapshot([], First(LATE, READY, InHand(0)), Returned(0), Scan, INIT, 1, 0, false, [FIRST], [FIRST]);
    assert Apply(s1, Act(0)) == s2;
    ReachableStep(s2, Uncount(0));
    assert Apply(s2, Uncount(0))
      == Snapshot([], First(LATE, READY, InHand(0)), Uncounted(0), Scan, INIT, 0, 0, false, [FIRST], [FIRST]);
  }

  /** `stop()` is called; worker 1 finds nothing, sees `stopping()` and searches in vain once more. */
  lemma {:induction false} OtherFindsNothing()
    ensures Reachable(Snapshot([], First(LATE, READY, InHand(0)), Uncounted(0), Empty, INIT, 0, 0,
                               true, [FIRST], [FIRST]))
  {
    FirstUncounted();
    var t := First(LATE, READY, InHand(0));
    var s0 := Snapshot([], t, Uncounted(0), Scan, INIT, 0, 0, false, [FIRST], [FIRST]);
    ReachableStep(s0, RequestStop);
    ReachableStep(Apply(s0, RequestStop), FlagStop);
    var s1 := Snapshot([], t, Uncounted(0), Scan, INIT, 0, 0, true, [FIRST], [FIRST]);
    assert Apply(Apply(s0, RequestStop), FlagStop) == s1;
    ReachableStep(s1, Search(1));
    assert Apply(s1, Search(1)) == Snapshot([], t, Uncounted(0), Empty, INIT, 0, 0, true, [FIRST], [FIRST]);
  }

  lemma {:induction false} OtherGivesUp()
    ensures Reachable(Snapshot([], First(LATE, READY, InHand(0)), Uncounted(0), Empty, TERM, 0, 0,
                               true, [FIRST], [FIRST]))
  {
    OtherFindsNothing();
    var t := First(LATE, READY, InHand(0));
    var s2 := Snapshot([], t, Uncounted(0), Empty, INIT, 0, 0, true, [FIRST], [FIRST]);
    ReachableStep(s2, EnterIdle(1));
    var s3 := Snapshot([], t, Uncounted(0), InIdle, EXEC, 0, 1, true, [FIRST], [FIRST]);
    assert Apply(s2, EnterIdle(1)) == s3;
    ReachableStep(s3, AskStopping(1));
    var s4 := Snapshot([], t, Uncounted(0), IdleBack, TERM, 0, 1, true, [FIRST], [FIRST]);
    assert Apply(s3, AskStopping(1)) == s4;
    ReachableStep(s4, LeaveIdle(1));
    var s5 := Snapshot([], t, Uncounted(0), Scan, TERM, 0, 0, true, [FIRST], [FIRST]);
    assert Apply(s4, LeaveIdle(1)) == s5;
    ReachableStep(s5, Search(1));
  }

  lemma {:induction false} TakenAgain()
    ensures Reachable(Snapshot([], First(LATE, READY, InHand(0)), Picked(0), Empty, TERM, 1, 0,
                               true, [FIRST, FIRST], [FIRST, FIRST]))
  {
    OtherGivesUp();
    var s0 := Snapshot([], First(LATE, READY, InHand(0)), Uncounted(0), Empty, TERM, 0, 0, true, [FIRST], [FIRST]);
    ReachableStep(s0, Settle(0));
    var s1 := Snapshot([FIRST], First(LATE, READY, InList), Scan, Empty, TERM, 0, 0, true, [FIRST, FIRST], [FIRST]);
    assert Apply(s0, Settle(0)) == s1;
    assert FirstFor(s1, 0, 0) == 0;
    ReachableStep(s1, Search(0));
    assert Apply(s1, Search(0))
      == Snapshot([], First(LATE, READY, InHand(0)), Picked(0), Empty, TERM, 1, 0, true,
                  [FIRST, FIRST], [FIRST, FIRST]);
  }

  /** Worker 0 requeues the task, takes it again, and its code pins a callback to worker 1. */
  lemma {:induction false} LatePin() returns (s: State)
    ensures Reachable(s) && s.queue == [Entry(1, On(1))] && |s.workers| == 2 && s.started
    ensures !MaySearch(s, 1) && !Finished(s.workers[0])
  {
    TakenAgain();
    var s2 := Snapshot([], First(LATE, READY, InHand(0)), Picked(0), Empty, TERM, 1, 0, true,
                       [FIRST, FIRST], [FIRST, FIRST]);
    ReachableStep(s2, SwapIn(0));
    var s3 := Snapshot([], First(LATE, EXEC, InHand(0)), Running(0), Empty, TERM, 1, 0, true,
                       [FIRST, FIRST], [FIRST, FIRST]);
    assert Apply(s2, SwapIn(0)) == s3;
    ReachableStep(s3, Act(0));
    s := NewTask(SetTask(s3, 0, s3.tasks[0].(script := Finish)), Finish, true, On(1));
    assert s == Apply(s3, Act(0));
  }

  /** After `stop()`, a task can pin an entry to a worker that will never look at the list again: in no
      continuation is that entry taken, and in none do all threads return, so `stop()` never does. */
  lemma {:induction false} PinOutlivesWorker()
    ensures exists s :: (
      Reachable(s) && s.queue == [Entry(1, On(1))] && |s.workers| == 2
      && forall ls :: IsRun(s, ls) ==> Entry(1, On(1)) in Final(s, ls).queue && !AllExited(Final(s, ls)))
  {
    var s := LatePin();
    forall ls | IsRun(s, ls) ensures Entry(1, On(1)) in Final(s, ls).queue && !AllExited(Final(s, ls)) {
      AbandonedRun(s, ls, 0);
      StopHangs(s, ls, 0, 0);
    }
  }

  /** `schedule(f)` and `stop()` without `start()`: all threads there are have returned at once, and the
      entry is never taken. */
  lemma {:induction false} StopWithoutStart(script: Script)
    ensures exists s :: (
      Reachable(s) && s.queue == [FIRST] && s.autoStop && AllExited(s)
      && forall ls :: IsRun(s, ls) ==> FIRST in Final(s, ls).queue)
  {
    var s0 := Init(2, false);
    InitReachable(2, false);
    ReachableStep(s0, Submit(script, false, Any));
    var s1 := Apply(s0, Submit(script, false, Any));
    ReachableStep(s1, RequestStop);
    var s2 := Apply(s1, RequestStop);
    forall ls | IsRun(s2, ls) ensures FIRST in Final(s2, ls).queue {
      AbandonedRun(s2, ls, 0);
    }
    assert s2.queue == [FIRST];
  }
}
