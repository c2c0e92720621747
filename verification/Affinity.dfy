/** How long a pin lasts. A READY fiber is put back without its pin, so a task submitted for one worker
    can go on on another; this module says exactly when. */
module Affinity {
  import opened Scripts
  import opened Seqs
  import opened Protocol
  import opened Invariant
  import opened Ownership
  import opened Shutdown
  import opened Progress
  import opened Stranding

  // A run that loses the pin

  /** A task for worker 1 yields READY and is taken by worker 0. */
  lemma {:induction false} PinIsLost()
    ensures exists s :: (
      Reachable(s) && s.enqueued == [Entry(0, On(1)), Entry(0, Any)] && |s.workers| == 2 && Holds(s.workers[0], 0))
  {
    var e := Entry(0, On(1));
    var log := [e, FIRST];
    PinnedSettles();
    var s1 := Snapshot([FIRST], First(Finish, READY, InList), Scan, Scan, INIT, 0, 0, false, log, [e]);
    ReachableStep(s1, Search(0));
    assert FirstFor(s1, 0, 0) == 0;
    assert Apply(s1, Search(0)).workers[0].phase == Picked(0);
  }

  lemma {:induction false} PinnedTaken()
    ensures Reachable(Snapshot([], First(YieldReady(Finish), INIT, InHand(1)), Scan, Picked(0), INIT, 1, 0, false,
                               [Entry(0, On(1))], [Entry(0, On(1))]))
  {
    var e := Entry(0, On(1));
    Started();
    var s0 := Snapshot([], [], Scan, Scan, INIT, 0, 0, false, [], []);
    ReachableStep(s0, Submit(YieldReady(Finish), false, On(1)));
    var s1 := Snapshot([e], First(YieldReady(Finish), INIT, InList), Scan, Scan, INIT, 0, 0, false, [e], []);
    assert NewTask(s0, YieldReady(Finish), false, On(1)) == s1;
    ReachableStep(s1, Search(1));
    assert FirstFor(s1, 1, 0) == 0;
    assert Take(s1, 1, 0)
      == Snapshot([], First(YieldReady(Finish), INIT, InHand(1)), Scan, Picked(0), INIT, 1, 0, false, [e], [e]);
  }

  lemma {:induction false} PinnedSettles()
    ensures Reachable(Snapshot([FIRST], First(Finish, READY, InList), Scan, Scan, INIT, 0, 0, false,
                               [Entry(0, On(1)), FIRST], [Entry(0, On(1))]))
  {
    var e := Entry(0, On(1));
    PinnedTaken();
    var s0 := Snapshot([], First(YieldReady(Finish), INIT, InHand(1)), Scan, Picked(0), INIT, 1, 0, false, [e], [e]);
    ReachableStep(s0, SwapIn(1));
    var s1 := Snapshot([], First(YieldReady(Finish), EXEC, InHand(1)), Scan, Running(0), INIT, 1, 0, false, [e], [e]);
    assert Apply(s0, SwapIn(1)) == s1;
    ReachableStep(s1, Act(1));
    var s2 := Snapshot([], First(Finish, READY, InHand(1)), Scan, Returned(0), INIT, 1, 0, false, [e], [e]);
    assert Apply(s1, Act(1)) == s2;
    ReachableStep(s2, Uncount(1));
    var s3 := Snapshot([], First(Finish, READY, InHand(1)), Scan, Uncounted(0), INIT, 0, 0, false, [e], [e]);
    assert Apply(s2, Uncount(1)) == s3;
    ReachableStep(s3, Settle(1));
    assert Apply(s3, Settle(1))
      == Snapshot([FIRST], First(Finish, READY, InList), Scan, Scan, INIT, 0, 0, false, [e, FIRST], [e]);
  }

  // No READY fiber is listed with a pin

  ghost predicate PinnedNotReady(s: State) {
    forall i :: 0 <= i < |s.queue| && s.queue[i].pin.On? ==>
      s.queue[i].task < |s.tasks| && s.tasks[s.queue[i].task].fiber != Some(READY)
  }

  lemma {:induction false} PushedNotReady(s: State, l: Label)
    requires Inv(s) && Enabled(s, l) && MayPush(l)
    requires Pushes(s, Apply(s, l)) && Inv(Apply(s, l))
    ensures var s' := Apply(s, l); var e := s'.queue[|s.queue|];
      e.pin.On? ==> s'.tasks[e.task].fiber != Some(READY)
  {
    var s' := Apply(s, l);
    var t := s'.queue[|s.queue|].task;
    if t < |s.tasks| {
      assert TaskOk(s, t);
      if !Handles(s, l, t) {
        OnlyItsWorker(s, l, t);
        PushedWasHeld(s, l, t);
      } else {
        ActPushesOthers(s, l, t);
      }
    } else {
      NewTaskIsFresh(s, l);
    }
  }

  /** An entry for a task that the acting worker does not have in hand comes from the task's owner. */
  lemma {:induction false} PushedWasHeld(s: State, l: Label, t: nat)
    requires Inv(s) && Enabled(s, l) && Inv(Apply(s, l)) && Pushes(s, Apply(s, l))
    requires t < |s.tasks| && Apply(s, l).queue[|s.queue|].task == t && !Handles(s, l, t)
    ensures s.tasks[t].place == Held
  {
    var s' := Apply(s, l);
    OnlyItsWorker(s, l, t);
    assert TaskOk(s, t);
    if s.tasks[t].place == InList {
      NotPushedAgain(s, s', t);
    }
  }

  lemma {:induction false} NotPushedAgain(s: State, s': State, t: nat)
    requires InQueue(s, t) && Pushes(s, s') && QueueOk(s')
    ensures s'.queue[|s.queue|].task != t
  {
    var i :| 0 <= i < |s.queue| && s.queue[i].task == t;
    assert s'.queue[i].task != s'.queue[|s.queue|].task;
  }

  /** A worker lists the task it has in hand only when requeueing it, unpinned. */
  lemma {:induction false} ActPushesOthers(s: State, l: Label, t: nat)
    requires Inv(s) && Enabled(s, l) && MayPush(l) && Inv(Apply(s, l))
    requires t < |s.tasks| && Handles(s, l, t) && Pushes(s, Apply(s, l)) && Apply(s, l).queue[|s.queue|].task == t
    ensures Apply(s, l).queue[|s.queue|].pin == Any
  {
    assert TaskOk(s, t);
    if l.Act? {
      ActOnOwn(s, l.w, t);
    }
  }

  lemma {:induction false} ActOnOwn(s: State, w: nat, t: nat)
    requires Inv(s) && Enabled(s, Act(w)) && s.workers[w].phase == Running(t)
    ensures t < |Apply(s, Act(w)).tasks| && Apply(s, Act(w)).tasks[t].place == InHand(w)
  {
    assert HandOk(s, w);
    match s.tasks[t].script
    case Spawn(_, _, _, _) =>
    case Wake(_, _, _) =>
    case _ =>
  }

  lemma {:induction false} NewTaskIsFresh(s: State, l: Label)
    requires Enabled(s, l) && MayPush(l) && Inv(s)
    requires Pushes(s, Apply(s, l)) && Apply(s, l).queue[|s.queue|].task >= |s.tasks|
    ensures var s' := Apply(s, l); var t := s'.queue[|s.queue|].task;
      t < |s'.tasks| && s'.tasks[t].fiber != Some(READY)
  {
    if l.Act? {
      SpawnedIsFresh(s, l.w, s.workers[l.w].phase.task);
    }
  }

  lemma {:induction false} SpawnedIsFresh(s: State, w: nat, t: nat)
    requires w < |s.workers| && t < |s.tasks|
    ensures var s' := DoAct(s, w, t);
      Pushes(s, s') && s'.queue[|s.queue|].task >= |s.tasks| ==>
        s'.queue[|s.queue|].task < |s'.tasks| && s'.tasks[s'.queue[|s.queue|].task].fiber != Some(READY)
  {
    match s.tasks[t].script
    case Spawn(_, _, _, _) =>
    case Wake(_, _, _) =>
    case _ =>
  }

  lemma {:induction false} StepPinnedNotReady(s: State, l: Label)
    requires Inv(s) && PinnedNotReady(s) && Enabled(s, l)
    ensures PinnedNotReady(Apply(s, l))
  {
    var s' := Apply(s, l);
    StepKeepsInv(s, l);
    forall j | 0 <= j < |s'.queue| && s'.queue[j].pin.On?
      ensures s'.queue[j].task < |s'.tasks| && s'.tasks[s'.queue[j].task].fiber != Some(READY)
    {
      var i := WhereFrom(s, l, j);
      if i.Some? {
        OnlyItsWorker(s, l, s.queue[i.value].task);
      } else {
        PushedNotReady(s, l);
      }
    }
  }

  lemma {:induction false} RunPinnedNotReady(s: State, ls: seq<Label>)
    requires Inv(s) && PinnedNotReady(s) && IsRun(s, ls)
    ensures PinnedNotReady(Final(s, ls))
    decreases |ls|
  {
    if ls != [] {
      StepPinnedNotReady(s, ls[0]);
      StepKeepsInv(s, ls[0]);
      RunPinnedNotReady(Apply(s, ls[0]), ls[1..]);
    }
  }

  /** In every reachable state, a listed entry with a pin never carries a READY fiber. */
  lemma {:induction false} PinnedIsNeverReady(s: State)
    requires Reachable(s)
    ensures PinnedNotReady(s)
  {
    var n: nat, caller: bool, ls: seq<Label> :|
      n > 0 && IsRun(Init(n, caller), ls) && s == Final(Init(n, caller), ls);
    InitKeepsInv(n, caller);
    RunPinnedNotReady(Init(n, caller), ls);
  }

  // While the pin holds

  /** The task itself, its children aside, yields READY somewhere. */
  predicate YieldsReady(script: Script) {
    match script
    case Finish => false
    case Throw => false
    case YieldReady(_) => true
    case YieldHold(rest) => YieldsReady(rest)
    case Spawn(_, _, _, rest) => YieldsReady(rest)
    case Wake(_, _, rest) => YieldsReady(rest)
  }

  /** The task itself yields somewhere, READY or HOLD. */
  predicate Yields(script: Script) {
    match script
    case Finish => false
    case Throw => false
    case YieldReady(_) => true
    case YieldHold(_) => true
    case Spawn(_, _, _, rest) => Yields(rest)
    case Wake(_, _, rest) => Yields(rest)
  }

  /** If the step gives the held task `t` back to the scheduler, it pins it to `w`. */
  predicate WakesOn(s: State, l: Label, t: nat, w: nat)
    requires Enabled(s, l)
  {
    var s' := Apply(s, l);
    t < |s.tasks| && t < |s'.tasks| && s.tasks[t].place == Held && s'.tasks[t].place == InList ==>
      s'.queue != [] && s'.queue[|s'.queue| - 1] == Entry(t, On(w))
  }

  /** A run in which task `t` is only ever woken on `w`. */
  ghost predicate IsRunOn(s: State, ls: seq<Label>, t: nat, w: nat)
    decreases |ls|
  {
    ls == [] || (Enabled(s, ls[0]) && WakesOn(s, ls[0], t, w) && IsRunOn(Apply(s, ls[0]), ls[1..], t, w))
  }

  ghost predicate ListedOnlyOn(s: State, t: nat, w: nat) {
    forall i :: 0 <= i < |s.queue| && s.queue[i].task == t ==> s.queue[i].pin == On(w)
  }

  /** No worker but `w` can get at the task. */
  ghost predicate Bound(s: State, t: nat, w: nat) {
    && t < |s.tasks|
    && !YieldsReady(s.tasks[t].script)
    && s.tasks[t].fiber != Some(READY)
    && (s.tasks[t].place.InHand? ==> s.tasks[t].place.worker == w)
    && ListedOnlyOn(s, t, w)
  }

  predicate LetGo(x: Task) { x.place == Held || x.place == Done || x.place == Recycled }

  /** What the worker does with the task in its hand. */
  lemma {:induction false} HandStaysBound(s: State, l: Label, t: nat)
    requires Inv(s) && Enabled(s, l) && t < |s.tasks| && Handles(s, l, t)
    requires !YieldsReady(s.tasks[t].script) && s.tasks[t].fiber != Some(READY)
    ensures var s' := Apply(s, l);
      && t < |s'.tasks| && !YieldsReady(s'.tasks[t].script) && s'.tasks[t].fiber != Some(READY)
      && (s'.tasks[t].place == s.tasks[t].place || LetGo(s'.tasks[t]))
  {
    assert TaskOk(s, t);
    if l.Act? {
      ActStaysBound(s, l.w, t);
    } else if l.Settle? {
      SettleStaysBound(s, l.w, t);
    }
  }

  lemma {:induction false} ActStaysBound(s: State, w: nat, t: nat)
    requires Inv(s) && Enabled(s, Act(w)) && s.workers[w].phase == Running(t)
    requires !YieldsReady(s.tasks[t].script)
    ensures var s' := Apply(s, Act(w));
      && t < |s'.tasks| && !YieldsReady(s'.tasks[t].script) && s'.tasks[t].fiber != Some(READY)
      && s'.tasks[t].place == InHand(w)
  {
    ActOnOwn(s, w, t);
    assert HandOk(s, w) && TaskOk(s, t);
    match s.tasks[t].script
    case Wake(u, _, _) => assert s.tasks[t].place != Held;
    case _ =>
  }

  lemma {:induction false} SettleStaysBound(s: State, w: nat, t: nat)
    requires w < |s.workers| && t < |s.tasks| && !YieldsReady(s.tasks[t].script) && s.tasks[t].fiber != Some(READY)
    ensures var s' := DoSettle(s, w, t);
      && !YieldsReady(s'.tasks[t].script) && s'.tasks[t].fiber != Some(READY)
      && LetGo(s'.tasks[t])
  {}

  lemma {:induction false} ListedStaysBound(s: State, l: Label, t: nat, w: nat)
    requires Inv(s) && Enabled(s, l) && Inv(Apply(s, l)) && t < |s.tasks| && !Handles(s, l, t)
    requires ListedOnlyOn(s, t, w) && WakesOn(s, l, t, w)
    ensures ListedOnlyOn(Apply(s, l), t, w)
  {
    var s' := Apply(s, l);
    OnlyItsWorker(s, l, t);
    forall j | 0 <= j < |s'.queue| && s'.queue[j].task == t ensures s'.queue[j].pin == On(w) {
      var i := WhereFrom(s, l, j);
      if i == None {
        PushedWasHeld(s, l, t);
      }
    }
  }

  lemma {:induction false} StaysBound(s: State, l: Label, t: nat, w: nat)
    requires Inv(s) && Enabled(s, l) && Bound(s, t, w) && WakesOn(s, l, t, w)
    ensures Bound(Apply(s, l), t, w)
  {
    var s' := Apply(s, l);
    StepKeepsInv(s, l);
    if Handles(s, l, t) {
      HandStaysBound(s, l, t);
    } else {
      OnlyItsWorker(s, l, t);
      ListedStaysBound(s, l, t, w);
      if s.tasks[t].place == InList && l.Search? {
        assert TaskOk(s, t);
        TakenByItsWorker(s, l.w, t, w);
      }
    }
  }

  lemma {:induction false} TakenByItsWorker(s: State, v: nat, t: nat, w: nat)
    requires Inv(s) && Enabled(s, Search(v)) && ListedOnlyOn(s, t, w)
    requires t < |s.tasks| && s.tasks[t].place == InList
    ensures var x := Apply(s, Search(v)).tasks; t < |x| && (x[t].place == InHand(v) ==> v == w)
  {
    assert TaskOk(s, t);
  }

  lemma {:induction false} RunStaysBound(s: State, ls: seq<Label>, t: nat, w: nat)
    requires Inv(s) && Bound(s, t, w) && IsRunOn(s, ls, t, w)
    ensures IsRun(s, ls) && Inv(Final(s, ls)) && Bound(Final(s, ls), t, w)
    decreases |ls|
  {
    if ls != [] {
      StaysBound(s, ls[0], t, w);
      StepKeepsInv(s, ls[0]);
      RunStaysBound(Apply(s, ls[0]), ls[1..], t, w);
    }
  }

  // A task that never yields needs no care in waking it

  predicate OneSegment(s: State, t: nat) {
    && t < |s.tasks| && !Yields(s.tasks[t].script) && s.tasks[t].place != Held
    && s.tasks[t].fiber != Some(HOLD) && s.tasks[t].fiber != Some(READY)
  }

  lemma {:induction false} ActStaysOneSegment(s: State, w: nat, t: nat)
    requires Inv(s) && Enabled(s, Act(w)) && s.workers[w].phase == Running(t) && OneSegment(s, t)
    ensures OneSegment(Apply(s, Act(w)), t)
  {
    ActOnOwn(s, w, t);
    match s.tasks[t].script
    case Wake(u, _, _) => assert s.tasks[t].place != Held;
    case _ =>
  }

  lemma {:induction false} StaysOneSegment(s: State, l: Label, t: nat)
    requires Inv(s) && Enabled(s, l) && OneSegment(s, t)
    ensures OneSegment(Apply(s, l), t)
  {
    if Handles(s, l, t) {
      assert TaskOk(s, t);
      if l.Act? {
        ActStaysOneSegment(s, l.w, t);
      }
    } else {
      OnlyItsWorker(s, l, t);
    }
  }

  lemma {:induction false} RunOfOneSegment(s: State, ls: seq<Label>, t: nat, w: nat)
    requires Inv(s) && OneSegment(s, t) && IsRun(s, ls)
    ensures IsRunOn(s, ls, t, w)
    decreases |ls|
  {
    if ls != [] {
      StaysOneSegment(s, ls[0], t);
      StepKeepsInv(s, ls[0]);
      RunOfOneSegment(Apply(s, ls[0]), ls[1..], t, w);
    }
  }
}
