/** What a call of `schedule` lists and for whom, how tasks end, and what the flags and the spare fiber do:
    single steps, told without the functions that define them. */
module Scheduling {
  import opened Scripts
  import opened Seqs
  import opened Protocol
  import opened Invariant
  import opened Ownership
  import opened Shutdown
  import opened Affinity

  // For whom

  /** The task running on worker `w` calls `schedule`, for a new task or for a fiber its owner holds: the last
      entry is for it, and may be taken by any worker, by `w` alone, or by the worker named. */
  lemma {:induction false} TaskSchedulesFor(s: State, w: nat, v: nat)
    requires Reachable(s) && Enabled(s, Act(w))
    requires var script := s.tasks[s.workers[w].phase.task].script;
      script.Spawn? || (script.Wake? && IsHeld(s, script.task))
    ensures var t, s' := s.workers[w].phase.task, Apply(s, Act(w));
      var script := s.tasks[t].script;
      && Pushes(s, s') && t < |s'.tasks| && s'.tasks[t].script == script.rest
      && var e := s'.queue[|s.queue|];
      && e.task < |s'.tasks| && s'.tasks[e.task].place == InList
      && (Entitled(e, v) <==>
            script.target == AnyThread || (script.target == OwnThread && v == w) || script.target == OnThread(v))
      && (script.Spawn? ==>
            && e.task == |s.tasks| && s'.tasks[e.task].script == script.child
            && s'.tasks[e.task].fiber == if script.asCallback then None else Some(INIT))
      && (script.Wake? ==> e.task == script.task && s'.tasks[e.task].script == s.tasks[script.task].script)
  {
    ReachableInv(s);
    assert HandOk(s, w);
    match s.tasks[s.workers[w].phase.task].script
    case Spawn(_, _, _, _) =>
    case Wake(_, _, _) =>
  }

  /** Waking a task that is not held changes nothing but the caller's place in its script. */
  lemma {:induction false} WakesNobody(s: State, w: nat)
    requires Reachable(s) && Enabled(s, Act(w))
    requires var script := s.tasks[s.workers[w].phase.task].script; script.Wake? && !IsHeld(s, script.task)
    ensures var t, s' := s.workers[w].phase.task, Apply(s, Act(w));
      && LeavesList(s, s') && s'.workers == s.workers
      && s'.tasks == s.tasks[t := s.tasks[t].(script := s.tasks[t].script.rest)]
  {
    ReachableInv(s);
    assert HandOk(s, w);
  }

  /** The same for calls from outside. */
  lemma {:induction false} OutsideSchedulesFor(s: State, l: Label, v: nat)
    requires Reachable(s) && Enabled(s, l) && (l.Submit? || l.SubmitHeld?)
    ensures var s' := Apply(s, l);
      && Pushes(s, s')
      && var e := s'.queue[|s.queue|];
      && e.task < |s'.tasks| && s'.tasks[e.task].place == InList
      && (Entitled(e, v) <==> l.pin == Any || l.pin == On(v))
      && (l.Submit? ==>
            && e.task == |s.tasks| && s'.tasks[e.task].script == l.script
            && s'.tasks[e.task].fiber == if l.asCallback then None else Some(INIT))
      && (l.SubmitHeld? ==> e.task == l.task && s'.tasks[e.task].script == s.tasks[l.task].script)
  {}

  // Who takes it

  /** Listed, for worker `w` only. */
  ghost predicate WaitsFor(s: State, t: nat, w: nat) {
    t < |s.tasks| && s.tasks[t].place == InList && ListedOnlyOn(s, t, w)
  }

  lemma {:induction false} WaitsOrIsTaken(s: State, l: Label, t: nat, w: nat)
    requires Inv(s) && Enabled(s, l) && WaitsFor(s, t, w)
    ensures WaitsFor(Apply(s, l), t, w)
      || (l == Search(w) && t < |Apply(s, l).tasks| && Apply(s, l).tasks[t].place == InHand(w))
  {
    StepKeepsInv(s, l);
    OnlyItsWorker(s, l, t);
    ListedStaysBound(s, l, t, w);
    if l.Search? {
      TakenByItsWorker(s, l.w, t, w);
    }
  }

  /** Not taken yet when step `k` begins, taken when it is over. */
  ghost predicate TakenFirstAt(s: State, ls: seq<Label>, k: nat, t: nat)
    requires IsRun(s, ls) && k < |ls|
  {
    && (forall j :: 0 <= j <= k ==> t < |At(s, ls, j).tasks| && At(s, ls, j).tasks[t].place == InList)
    && t < |At(s, ls, k + 1).tasks| && At(s, ls, k + 1).tasks[t].place != InList
  }

  lemma {:induction false} FirstTaker(s: State, ls: seq<Label>, k: nat, t: nat, w: nat)
    requires Inv(s) && IsRun(s, ls) && k < |ls| && WaitsFor(s, t, w) && TakenFirstAt(s, ls, k, t)
    ensures ls[k] == Search(w) && At(s, ls, k + 1).tasks[t].place == InHand(w)
    decreases k
  {
    var s1 := Apply(s, ls[0]);
    WaitsOrIsTaken(s, ls[0], t, w);
    LaterAt(s, ls, 0);
    if k > 0 {
      StepKeepsInv(s, ls[0]);
      LaterAt(s, ls, k);
      TakenLaterAt(s, ls, k, t);
      FirstTaker(s1, ls[1..], k - 1, t, w);
    }
  }

  lemma {:induction false} LaterAt(s: State, ls: seq<Label>, j: nat)
    requires IsRun(s, ls) && j < |ls|
    ensures At(s, ls, j + 1) == At(Apply(s, ls[0]), ls[1..], j)
  {}

  lemma {:induction false} TakenLaterAt(s: State, ls: seq<Label>, k: nat, t: nat)
    requires IsRun(s, ls) && 0 < k < |ls| && TakenFirstAt(s, ls, k, t)
    ensures TakenFirstAt(Apply(s, ls[0]), ls[1..], k - 1, t) && At(s, ls, 1) == Apply(s, ls[0])
    ensures t < |Apply(s, ls[0]).tasks| && Apply(s, ls[0]).tasks[t].place == InList
  {
    LaterAt(s, ls, 0);
    LaterAt(s, ls, k);
    forall j | 0 <= j < k
      ensures t < |At(Apply(s, ls[0]), ls[1..], j).tasks| && At(Apply(s, ls[0]), ls[1..], j).tasks[t].place == InList
    {
      LaterAt(s, ls, j);
    }
  }

  /** A task scheduled by a task on `w` for its own thread, or for thread `w` by name, is first taken by `w`, in
      every run; and so is one submitted from outside for `w`. */
  lemma {:induction false} FirstTakenByItsThread(s: State, l: Label, w: nat, ls: seq<Label>, k: nat)
    requires Reachable(s) && Enabled(s, l) && IsRun(Apply(s, l), ls) && k < |ls|
    requires match l
             case Submit(_, _, pin) => pin == On(w)
             case Act(v) =>
               var script := s.tasks[s.workers[v].phase.task].script;
               script.Spawn? && ((script.target == OwnThread && v == w) || script.target == OnThread(w))
             case _ => false
    requires TakenFirstAt(Apply(s, l), ls, k, |s.tasks|)
    ensures ls[k] == Search(w) && At(Apply(s, l), ls, k + 1).tasks[|s.tasks|].place == InHand(w)
  {
    ReachableInv(s);
    StepKeepsInv(s, l);
    NewWaitsFor(s, l, w);
    FirstTaker(Apply(s, l), ls, k, |s.tasks|, w);
  }

  lemma {:induction false} NewWaitsFor(s: State, l: Label, w: nat)
    requires Reachable(s) && Enabled(s, l)
    requires match l
             case Submit(_, _, pin) => pin == On(w)
             case Act(v) =>
               var script := s.tasks[s.workers[v].phase.task].script;
               script.Spawn? && ((script.target == OwnThread && v == w) || script.target == OnThread(w))
             case _ => false
    ensures WaitsFor(Apply(s, l), |s.tasks|, w)
  {
    ReachableInv(s);
    if l.Act? {
      TaskSchedulesFor(s, l.w, w);
      NoOtherPin(s, l.w, w);
    } else {
      OutsideSchedulesFor(s, l, w);
    }
  }

  lemma {:induction false} NoOtherPin(s: State, v: nat, w: nat)
    requires Reachable(s) && Enabled(s, Act(v))
    requires var script := s.tasks[s.workers[v].phase.task].script;
      script.Spawn? && ((script.target == OwnThread && v == w) || script.target == OnThread(w))
    ensures Pushes(s, Apply(s, Act(v))) && Apply(s, Act(v)).queue[|s.queue|] == Entry(|s.tasks|, On(w))
  {
    TaskSchedulesFor(s, v, w);
    TaskSchedulesFor(s, v, w + 1);
  }

  // How a segment ends

  /** Yielding, returning and throwing: the state the fiber is left in, and the code it has still to run. */
  lemma {:induction false} StopsAsItsCodeSays(s: State, w: nat)
    requires Reachable(s) && Enabled(s, Act(w))
    requires var script := s.tasks[s.workers[w].phase.task].script; !script.Spawn? && !script.Wake?
    ensures var t, s' := s.workers[w].phase.task, Apply(s, Act(w));
      && LeavesList(s, s') && |s'.workers| == |s.workers| && s'.workers[w].phase == Returned(t)
      && |s'.tasks| == |s.tasks|
      && match s.tasks[t].script
         case Finish => s'.tasks[t].fiber == Some(TERM)
         case Throw => s'.tasks[t].fiber == Some(EXCEPT)
         case YieldReady(rest) => s'.tasks[t].fiber == Some(READY) && s'.tasks[t].script == rest
         case YieldHold(rest) => s'.tasks[t].fiber == Some(HOLD) && s'.tasks[t].script == rest
         case _ => false
  {
    match s.tasks[s.workers[w].phase.task].script
    case Finish =>
    case Throw =>
    case YieldReady(_) =>
    case YieldHold(_) =>
  }

  ghost predicate EndedRight(s: State) {
    forall t :: 0 <= t < |s.tasks| ==>
      && (s.tasks[t].fiber == Some(TERM) ==> s.tasks[t].script == Finish)
      && (s.tasks[t].fiber == Some(EXCEPT) ==> s.tasks[t].script == Throw)
  }

  lemma {:induction false} HandEndsRight(s: State, l: Label, t: nat)
    requires Inv(s) && EndedRight(s) && Enabled(s, l) && t < |s.tasks| && Handles(s, l, t)
    ensures t < |Apply(s, l).tasks|
    ensures Apply(s, l).tasks[t].fiber == Some(TERM) ==> Apply(s, l).tasks[t].script == Finish
    ensures Apply(s, l).tasks[t].fiber == Some(EXCEPT) ==> Apply(s, l).tasks[t].script == Throw
  {
    assert TaskOk(s, t);
    if l.Act? {
      ActEndsRight(s, l.w, t);
    }
  }

  lemma {:induction false} ActEndsRight(s: State, w: nat, t: nat)
    requires Inv(s) && Enabled(s, Act(w)) && s.workers[w].phase == Running(t)
    ensures t < |Apply(s, Act(w)).tasks|
    ensures Apply(s, Act(w)).tasks[t].fiber == Some(TERM) ==> Apply(s, Act(w)).tasks[t].script == Finish
    ensures Apply(s, Act(w)).tasks[t].fiber == Some(EXCEPT) ==> Apply(s, Act(w)).tasks[t].script == Throw
  {
    assert HandOk(s, w) && TaskOk(s, t);
    ActOnOwn(s, w, t);
    match s.tasks[t].script
    case Wake(u, _, _) => assert s.tasks[t].place != Held;
    case _ =>
  }

  lemma {:induction false} NewNotEnded(s: State, l: Label, t: nat)
    requires Enabled(s, l) && |s.tasks| <= t < |Apply(s, l).tasks|
    ensures Apply(s, l).tasks[t].fiber == None || Apply(s, l).tasks[t].fiber == Some(INIT)
  {
    match l
    case Submit(_, _, _) =>
    case Act(w) => SpawnNotEnded(s, w, s.workers[w].phase.task, t);
    case Search(w) => SearchMoves(s, w);
    case SwapIn(_) => HandMoves(s, l);
    case Uncount(_) => HandMoves(s, l);
    case Settle(_) => HandMoves(s, l);
    case _ =>
  }

  lemma {:induction false} SpawnNotEnded(s: State, w: nat, r: nat, t: nat)
    requires w < |s.workers| && r < |s.tasks| && |s.tasks| <= t < |DoAct(s, w, r).tasks|
    ensures DoAct(s, w, r).tasks[t].fiber == None || DoAct(s, w, r).tasks[t].fiber == Some(INIT)
  {
    match s.tasks[r].script
    case Spawn(_, _, _, _) =>
    case _ =>
  }

  lemma {:induction false} StepEndsRight(s: State, l: Label)
    requires Inv(s) && EndedRight(s) && Enabled(s, l)
    ensures EndedRight(Apply(s, l))
  {
    var s' := Apply(s, l);
    forall t | 0 <= t < |s'.tasks|
      ensures s'.tasks[t].fiber == Some(TERM) ==> s'.tasks[t].script == Finish
      ensures s'.tasks[t].fiber == Some(EXCEPT) ==> s'.tasks[t].script == Throw
    {
      if t >= |s.tasks| {
        NewNotEnded(s, l, t);
      } else if Handles(s, l, t) {
        HandEndsRight(s, l, t);
      } else {
        OnlyItsWorker(s, l, t);
      }
    }
  }

  // The flags

  /** `m_stopping` is set before `start()` and not again before `stop()`. */
  predicate FlagsRight(s: State) {
    && (!s.started ==> s.stopping)
    && (s.started && !s.autoStop ==> !s.stopping)
  }

  lemma {:induction false} RunKeepsRight(s: State, ls: seq<Label>)
    requires Inv(s) && EndedRight(s) && FlagsRight(s) && IsRun(s, ls)
    ensures EndedRight(Final(s, ls)) && FlagsRight(Final(s, ls))
    decreases |ls|
  {
    if ls != [] {
      var s1 := Apply(s, ls[0]);
      StepEndsRight(s, ls[0]);
      StepKeepsInv(s, ls[0]);
      ActorMoves(s, ls[0]);
      RunKeepsRight(s1, ls[1..]);
    }
  }

  /** In every reachable state a fiber is in TERM only if its code returned, in EXCEPT only if it threw;
      `m_stopping` is set exactly before `start()` and, at the earliest, from `stop()` on; so that no idle
      fiber sees `stopping()` while the scheduler is in use. */
  lemma {:induction false} EndsAndFlags(s: State)
    requires Reachable(s)
    ensures forall t :: 0 <= t < |s.tasks| ==>
      && (s.tasks[t].fiber == Some(TERM) ==> s.tasks[t].script == Finish)
      && (s.tasks[t].fiber == Some(EXCEPT) ==> s.tasks[t].script == Throw)
    ensures !s.started ==> s.stopping
    ensures s.started && !s.autoStop ==> !s.stopping && !Stopping(s)
  {
    var n: nat, caller: bool, ls: seq<Label> :|
      n > 0 && IsRun(Init(n, caller), ls) && s == Final(Init(n, caller), ls);
    InitKeepsInv(n, caller);
    RunKeepsRight(Init(n, caller), ls);
  }

  /** `stop()` on the calling thread enters `run` unless both flags are set, the list is empty and no worker
      is active. */
  lemma {:induction false} StopEntersRunIff(s: State)
    requires Reachable(s) && Enabled(s, CallRoot)
    ensures var s' := Apply(s, CallRoot);
      && |s'.workers| == |s.workers|
      && (s.queue == [] && s.active == 0 ==> s'.workers[0].phase == Exited)
      && (s.queue != [] || s.active != 0 ==> s'.workers[0].phase == Scan)
  {}

  // The spare fiber

  /** A callback runs on the worker's spare fiber, built or reused: after the dispatch the worker keeps it,
      reset, if the callback has ended, and has none if it yielded; a task that came with a fiber of its own
      leaves the spare alone, and its fiber is left as it ended. */
  lemma {:induction false} SpareServesCallbacks(s: State, l: Label)
    requires Reachable(s) && Enabled(s, l) && (l.SwapIn? || l.Settle?)
    ensures var t, k, k' := s.workers[l.w].phase.task, s.workers[l.w], Apply(s, l).workers[l.w];
      && (l.SwapIn? ==> (s.tasks[t].fiber == None <==> k'.spare == Carrying))
      && (l.SwapIn? && s.tasks[t].fiber != None ==> k'.spare == k.spare)
      && (l.Settle? && k.spare != Carrying ==> k'.spare == k.spare)
      && (l.Settle? && k.spare == Carrying ==>
            k'.spare == if Ended(s.tasks[t].fiber) then Parked(INIT) else NoSpare)
      && (l.Settle? && Ended(s.tasks[t].fiber) ==>
            && t < |Apply(s, l).tasks|
            && Apply(s, l).tasks[t].place == if k.spare == Carrying then Recycled else Done)
  {
    ReachableInv(s);
    assert HandOk(s, l.w) && LocalsOk(s.workers[l.w]);
    assert TaskOk(s, s.workers[l.w].phase.task);
  }
}
