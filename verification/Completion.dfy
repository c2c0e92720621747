/** That `stop()` can complete: unless some pin points at a worker without a search, everything
    accepted can still be run and all threads can return. */
module Completion {
  import opened Scripts
  import opened Seqs
  import opened Protocol
  import opened Invariant
  import opened Ownership
  import opened Shutdown
  import opened Dispatch
  import opened Progress

  // Pins that point at the workers `p`

  predicate TargetIn(target: Target, p: set<nat>) { target.OnThread? ==> target.thread in p }

  /** Whatever the script schedules, its children included, is meant for anyone, the thread it runs on,
      or a worker in `p`. */
  predicate PinsIn(script: Script, p: set<nat>) {
    match script
    case Finish => true
    case Throw => true
    case YieldReady(rest) => PinsIn(rest, p)
    case YieldHold(rest) => PinsIn(rest, p)
    case Spawn(child, _, target, rest) => TargetIn(target, p) && PinsIn(child, p) && PinsIn(rest, p)
    case Wake(_, target, rest) => TargetIn(target, p) && PinsIn(rest, p)
  }

  ghost predicate QueuePinsIn(s: State, p: set<nat>) {
    forall i :: 0 <= i < |s.queue| && s.queue[i].pin.On? ==> s.queue[i].pin.worker in p
  }

  ghost predicate ScriptPinsIn(s: State, p: set<nat>) {
    forall t :: 0 <= t < |s.tasks| ==> PinsIn(s.tasks[t].script, p)
  }

  /** The workers with a search ahead of them. */
  ghost function Searchers(s: State): set<nat> {
    set w: nat | w < |s.workers| && WillSearch(s, w)
  }

  /** No entry and no script is pinned to a worker without a search, and those with one are `p`. */
  ghost predicate Live(s: State, p: set<nat>) {
    Searchers(s) == p && PinsStayIn(s, p)
  }

  ghost predicate PinsStayIn(s: State, p: set<nat>) { QueuePinsIn(s, p) && ScriptPinsIn(s, p) }

  lemma {:induction false} SetTaskPins(s: State, t: nat, x: Task, p: set<nat>)
    requires t < |s.tasks| && PinsStayIn(s, p) && PinsIn(x.script, p)
    ensures PinsStayIn(SetTask(s, t, x), p)
  {}

  lemma {:induction false} NewTaskPins(s: State, script: Script, asCallback: bool, pin: Pin, p: set<nat>)
    requires PinsStayIn(s, p) && PinsIn(script, p) && (pin.On? ==> pin.worker in p)
    ensures PinsStayIn(NewTask(s, script, asCallback, pin), p)
  {}

  lemma {:induction false} WakeHeldPins(s: State, t: nat, pin: Pin, p: set<nat>)
    requires t < |s.tasks| && PinsStayIn(s, p) && (pin.On? ==> pin.worker in p)
    ensures PinsStayIn(WakeHeld(s, t, pin), p)
  {
    assert PinsIn(s.tasks[t].script, p);
  }

  lemma {:induction false} SwapOutPins(s: State, w: nat, t: nat, rest: Script, st: FiberState, p: set<nat>)
    requires w < |s.workers| && t < |s.tasks| && PinsStayIn(s, p) && PinsIn(rest, p)
    ensures PinsStayIn(SwapOut(s, w, t, rest, st), p)
  {
    SetTaskPins(s, t, s.tasks[t].(script := rest, fiber := Some(st)), p);
  }

  lemma {:induction false} ActPins(s: State, w: nat, t: nat, p: set<nat>)
    requires w < |s.workers| && t < |s.tasks| && PinsStayIn(s, p) && w in p
    ensures PinsStayIn(DoAct(s, w, t), p)
  {
    assert PinsIn(s.tasks[t].script, p);
    match s.tasks[t].script
    case Finish => SwapOutPins(s, w, t, Finish, TERM, p);
    case Throw => SwapOutPins(s, w, t, Throw, EXCEPT, p);
    case YieldReady(rest) => SwapOutPins(s, w, t, rest, READY, p);
    case YieldHold(rest) => SwapOutPins(s, w, t, rest, HOLD, p);
    case Spawn(child, asCallback, target, rest) =>
      SetTaskPins(s, t, s.tasks[t].(script := rest), p);
      NewTaskPins(SetTask(s, t, s.tasks[t].(script := rest)), child, asCallback, Resolve(target, w), p);
    case Wake(u, target, rest) =>
      var s1 := SetTask(s, t, s.tasks[t].(script := rest));
      SetTaskPins(s, t, s.tasks[t].(script := rest), p);
      if IsHeld(s1, u) {
        WakeHeldPins(s1, u, Resolve(target, w), p);
      }
  }

  lemma {:induction false} SettlePins(s: State, w: nat, t: nat, p: set<nat>)
    requires w < |s.workers| && t < |s.tasks| && PinsStayIn(s, p)
    ensures PinsStayIn(DoSettle(s, w, t), p)
  {
    assert PinsIn(s.tasks[t].script, p);
  }

  lemma {:induction false} NextPins(s: State, w: nat, p: set<nat>)
    requires w < |s.workers| && Enabled(s, Next(s, w)) && s.workers[w].phase != Scan && s.workers[w].phase != Exited
    requires PinsStayIn(s, p) && w in p
    ensures PinsStayIn(Apply(s, Next(s, w)), p)
  {
    match s.workers[w].phase
    case Running(t) => ActPins(s, w, t, p);
    case Uncounted(t) => SettlePins(s, w, t, p);
    case _ =>
  }

  lemma {:induction false} SearchersStay(s: State, s': State, w: nat)
    requires w < |s.workers| && Advances(s, s', w) && WillSearch(s, w)
    ensures Searchers(s') == Searchers(s)
  {
    forall v: nat ensures v in Searchers(s') <==> v in Searchers(s) {
      assert v < |s.workers| && v != w ==> s'.workers[v] == s.workers[v];
    }
  }

  lemma {:induction false} OwnRunLive(s: State, ls: seq<Label>, w: nat, p: set<nat>)
    requires IsRun(s, ls) && OwnRun(s, ls, w) && Live(s, p)
    ensures Live(Final(s, ls), p)
    decreases |ls|
  {
    if ls != [] {
      NextAdvances(s, w);
      SearchersStay(s, Apply(s, ls[0]), w);
      NextPins(s, w, p);
      OwnRunLive(Apply(s, ls[0]), ls[1..], w, p);
    }
  }

  lemma {:induction false} NextSpends(s: State, w: nat)
    requires Inv(s) && w < |s.workers| && Enabled(s, Next(s, w))
    ensures Total(Apply(s, Next(s, w))) <= Total(s)
    ensures s.workers[w].phase.Picked? ==> Total(Apply(s, Next(s, w))) < Total(s)
  {
    StepConserves(s, Next(s, w));
  }

  lemma {:induction false} OwnRunSpends(s: State, ls: seq<Label>, w: nat)
    requires IsRun(s, ls) && OwnRun(s, ls, w)
    ensures Total(Final(s, ls)) <= Total(s)
    ensures ls != [] && s.workers[w].phase.Picked? ==> Total(Final(s, ls)) < Total(s)
    decreases |ls|
  {
    if ls != [] {
      NextSpends(s, w);
      OwnRunSpends(Apply(s, ls[0]), ls[1..], w);
    }
  }

  // Emptying hands and list

  ghost predicate NoHands(s: State, k: nat) {
    forall w :: 0 <= w < |s.workers| && w < k ==> !HasTask(s.workers[w].phase)
  }

  ghost predicate Stopped(s: State) { HasWorkers(s) && s.autoStop && s.stopping }

  /** Every worker from `k` on gets rid of the task in its hand. */
  lemma {:induction false} ClearHands(s: State, k: nat, p: set<nat>) returns (ls: seq<Label>)
    requires Inv(s) && Live(s, p) && Stopped(s) && NoHands(s, k) && k <= |s.workers|
    ensures IsRun(s, ls) && Inv(Final(s, ls)) && Live(Final(s, ls), p) && Stopped(Final(s, ls))
    ensures NoHands(Final(s, ls), |Final(s, ls).workers|)
    decreases |s.workers| - k
  {
    if k == |s.workers| {
      ls := [];
    } else {
      var a: seq<Label> := [];
      if HasTask(s.workers[k].phase) {
        a := ToSearch(s, k);
        OwnRunLive(s, a, k, p);
      }
      var b := ClearHands(Final(s, a), k + 1, p);
      Join(s, a, b);
      ls := a + b;
    }
  }

  /** One listed task runs for one segment. */
  lemma {:induction false} OneRound(s: State, w: nat, p: set<nat>) returns (ls: seq<Label>)
    requires Inv(s) && Live(s, p) && Stopped(s) && NoHands(s, |s.workers|)
    requires w in p && s.queue != [] && Entitled(s.queue[0], w)
    ensures IsRun(s, ls) && Inv(Final(s, ls)) && Live(Final(s, ls), p) && Stopped(Final(s, ls))
    ensures NoHands(Final(s, ls), |Final(s, ls).workers|) && Total(Final(s, ls)) < Total(s)
  {
    var a := ToSearch(s, w);
    OwnRunLive(s, a, w, p);
    OwnRunSpends(s, a, w);
    var s1 := Final(s, a);
    assert s1.queue[0] == s.queue[0];
    var b := TakeAndRun(s1, w, p);
    Join(s, a, b);
    ls := a + b;
  }

  lemma {:induction false} TakeAndRun(s: State, w: nat, p: set<nat>) returns (ls: seq<Label>)
    requires Inv(s) && Live(s, p) && Stopped(s) && NoHands(s, |s.workers|)
    requires w < |s.workers| && s.workers[w].phase == Scan && s.queue != [] && Entitled(s.queue[0], w)
    ensures IsRun(s, ls) && Inv(Final(s, ls)) && Live(Final(s, ls), p) && Stopped(Final(s, ls))
    ensures NoHands(Final(s, ls), |Final(s, ls).workers|) && Total(Final(s, ls)) < Total(s)
  {
    TakeFirst(s, w, p);
    var s1 := Apply(s, Search(w));
    var b := ToSearch(s1, w);
    OwnRunLive(s1, b, w, p);
    OwnRunSpends(s1, b, w);
    Before(s, Search(w), b);
    ls := [Search(w)] + b;
  }

  lemma {:induction false} TakeFirst(s: State, w: nat, p: set<nat>)
    requires Inv(s) && Live(s, p) && w < |s.workers| && s.workers[w].phase == Scan
    requires s.queue != [] && Entitled(s.queue[0], w)
    ensures Enabled(s, Search(w))
    ensures var s' := Apply(s, Search(w));
      && Inv(s') && Live(s', p) && OnlyMoves(s, s', w) && s'.workers[w].phase.Picked? && Total(s') == Total(s)
  {
    var s' := Apply(s, Search(w));
    SearchHits(s, 0, w);
    SearchStopsBy(s, 0, w);
    StepKeepsInv(s, Search(w));
    SearchMoves(s, w);
    SearchPreserves(s, w);
    forall v: nat ensures v in Searchers(s') <==> v in Searchers(s) {
      assert v < |s.workers| && v != w ==> s'.workers[v] == s.workers[v];
    }
    assert s' == Take(s, w, 0);
  }

  lemma {:induction false} DrainQueue(s: State, p: set<nat>) returns (ls: seq<Label>)
    requires Inv(s) && Live(s, p) && Stopped(s) && NoHands(s, |s.workers|) && p != {}
    ensures IsRun(s, ls) && Inv(Final(s, ls)) && Stopped(Final(s, ls))
    ensures NoHands(Final(s, ls), |Final(s, ls).workers|) && Final(s, ls).queue == []
    decreases Total(s)
  {
    if s.queue == [] {
      ls := [];
    } else {
      var w: nat :| w in p && Entitled(s.queue[0], w);
      var a := OneRound(s, w, p);
      var b := DrainQueue(Final(s, a), p);
      Join(s, a, b);
      ls := a + b;
    }
  }

  // Leaving

  /** Nothing is listed and nobody has a task: `stopping()` holds. */
  ghost predicate Over(s: State) {
    Inv(s) && Stopped(s) && NoHands(s, |s.workers|) && s.queue == []
  }

  lemma {:induction false} OverMeansStopping(s: State)
    requires Over(s)
    ensures Stopping(s)
    ensures forall t :: 0 <= t < |s.tasks| ==> Ended(s.tasks[t].fiber) || s.tasks[t].fiber == Some(HOLD)
  {
    SumZero(ActiveOne, s.workers);
    forall t | 0 <= t < |s.tasks| ensures Ended(s.tasks[t].fiber) || s.tasks[t].fiber == Some(HOLD) {
      assert TaskOk(s, t);
    }
  }

  function WayOut(s: State, w: nat): Label
    requires w < |s.workers|
  {
    if s.workers[w].phase == Scan then Search(w) else Next(s, w)
  }

  function StepsOut(k: Worker): nat {
    match k.phase
    case Outside => 8
    case Scan => if k.idleFiber == TERM then 2 else 6
    case Empty => if k.idleFiber == TERM then 1 else 5
    case InIdle => 4
    case IdleBack => if k.idleFiber == TERM then 3 else 7
    case _ => 0
  }

  /** Closer to the exit, with nothing else changed. */
  ghost predicate StepsOnly(s: State, s': State, w: nat) {
    && OnlyMoves(s, s', w) && s'.tasks == s.tasks && s'.queue == s.queue
    && StepsOut(s'.workers[w]) < StepsOut(s.workers[w]) && !HasTask(s'.workers[w].phase)
  }

  lemma {:induction false} EntersOut(s: State, w: nat)
    requires Over(s) && Stopping(s) && w < |s.workers| && s.workers[w].phase.Outside? && HasThread(s, w)
    ensures Enabled(s, WayOut(s, w)) && StepsOnly(s, Apply(s, WayOut(s, w)), w)
  {}

  lemma {:induction false} IdlesOut(s: State, w: nat)
    requires Over(s) && Stopping(s) && w < |s.workers|
    requires s.workers[w].phase.Empty? || s.workers[w].phase.InIdle? || s.workers[w].phase.IdleBack?
    ensures Enabled(s, WayOut(s, w)) && StepsOnly(s, Apply(s, WayOut(s, w)), w)
  {
    assert LocalsOk(s.workers[w]);
  }

  lemma {:induction false} OneStepOut(s: State, w: nat)
    requires Over(s) && w < |s.workers| && HasThread(s, w) && s.workers[w].phase != Exited
    ensures Enabled(s, WayOut(s, w)) && Over(Apply(s, WayOut(s, w)))
    ensures StepsOnly(s, Apply(s, WayOut(s, w)), w)
  {
    OverMeansStopping(s);
    assert !HasTask(s.workers[w].phase);
    match s.workers[w].phase {
      case Outside => EntersOut(s, w);
      case Empty => IdlesOut(s, w);
      case InIdle => IdlesOut(s, w);
      case IdleBack => IdlesOut(s, w);
      case Scan => assert FirstFor(s, w, 0) == 0;
    }
    StepKeepsInv(s, WayOut(s, w));
  }

  lemma {:induction false} WalkOut(s: State, w: nat) returns (ls: seq<Label>)
    requires Over(s) && w < |s.workers| && HasThread(s, w)
    ensures IsRun(s, ls) && Over(Final(s, ls)) && OnlyMoves(s, Final(s, ls), w)
    ensures Final(s, ls).workers[w].phase == Exited
    decreases StepsOut(s.workers[w])
  {
    if s.workers[w].phase == Exited {
      ls := [];
    } else {
      OneStepOut(s, w);
      var l := WayOut(s, w);
      var rest := WalkOut(Apply(s, l), w);
      Before(s, l, rest);
      ls := [l] + rest;
    }
  }

  lemma {:induction false} AllWalkOut(s: State, k: nat) returns (ls: seq<Label>)
    requires Over(s) && k <= |s.workers|
    requires forall w :: 0 <= w < k && HasThread(s, w) ==> s.workers[w].phase == Exited
    ensures IsRun(s, ls) && Over(Final(s, ls)) && AllExited(Final(s, ls))
    decreases |s.workers| - k
  {
    if k == |s.workers| {
      ls := [];
    } else {
      var a: seq<Label> := [];
      if HasThread(s, k) {
        a := WalkOut(s, k);
      }
      var b := AllWalkOut(Final(s, a), k + 1);
      Join(s, a, b);
      ls := a + b;
    }
  }

  ghost predicate Completes(s: State, ls: seq<Label>) {
    && IsRun(s, ls)
    && AllExited(Final(s, ls))
    && forall t :: 0 <= t < |Final(s, ls).tasks| ==>
         Ended(Final(s, ls).tasks[t].fiber) || Final(s, ls).tasks[t].fiber == Some(HOLD)
  }

  /** With workers, started or the calling thread, and when nothing listed and no script is pinned to a
      worker without a search, some run ends with all threads returned and every task ended or held by its owner. */
  lemma {:induction false} StopCanComplete(s: State)
    requires Reachable(s) && HasWorkers(s) && Live(s, Searchers(s))
    ensures exists ls :: Completes(s, ls)
    decreases !s.autoStop, !s.stopping
  {
    if Stopped(s) {
      var ls := RunToEnd(s);
    } else {
      var l := if s.autoStop then FlagStop else RequestStop;
      var s1 := Apply(s, l);
      ReachableStep(s, l);
      assert forall v: nat :: v < |s.workers| ==> WillSearch(s1, v) == WillSearch(s, v);
      assert Searchers(s1) == Searchers(s);
      StopCanComplete(s1);
      var rest :| Completes(s1, rest);
      Before(s, l, rest);
      assert Completes(s, [l] + rest);
    }
  }

  lemma {:induction false} RunToEnd(s: State) returns (ls: seq<Label>)
    requires Reachable(s) && Stopped(s) && Live(s, Searchers(s))
    ensures Completes(s, ls)
  {
    ReachableLive(s);
    var p := Searchers(s);
    var a := ClearHands(s, 0, p);
    var s1 := Final(s, a);
    var b: seq<Label> := [];
    if s1.queue != [] {
      SomeoneLeft(s1, a, s, p);
      b := DrainQueue(s1, p);
    }
    var s2 := Final(s1, b);
    var c := AllWalkOut(s2, 0);
    OverMeansStopping(Final(s2, c));
    Join(s1, b, c);
    Join(s, a, b + c);
    ls := a + (b + c);
  }

  lemma {:induction false} SomeoneLeft(s1: State, a: seq<Label>, s: State, p: set<nat>)
    requires Reachable(s) && IsRun(s, a) && s1 == Final(s, a) && Live(s1, p) && HasWorkers(s1) && s1.queue != []
    ensures p != {}
  {
    ReachableRun(s, a, |a|);
    ReachableLive(s1);
    if s1.queue[0].pin == Any {
      assert Unpinned(s1);
      var w :| 0 <= w < |s1.workers| && WillSearch(s1, w);
      assert w in p;
    } else {
      assert s1.queue[0].pin.worker in p;
    }
  }
}
