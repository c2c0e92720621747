/** How much the workers can still do: every step that is not part of the idle loop is paid for by a task,
    so without submissions from outside only so many of them can follow. */
module Work {
  import opened Scripts
  import opened Seqs
  import opened Protocol
  import opened Invariant
  import opened Ownership

  /** Steps from the moment a task with this script runs until it and its children have ended and been
      put down: the actions, the decrement and settling after each segment, search and swap in before
      each later one. */
  function Steps(script: Script): nat {
    match script
    case Finish => 3
    case Throw => 3
    case YieldReady(rest) => 5 + Steps(rest)
    case YieldHold(rest) => 5 + Steps(rest)
    case Spawn(child, _, _, rest) => 3 + Steps(child) + Steps(rest)
    case Wake(_, _, rest) => 1 + Steps(rest)
  }

  function TaskWork(x: Task): nat {
    if x.fiber == Some(EXEC) then Steps(x.script)
    else if Ended(x.fiber) then 0
    else 2 + Steps(x.script)
  }

  /** One for a worker without a task in hand; the search that finds one spends it. */
  function WorkerWork(k: Worker): nat {
    match k.phase
    case Picked(_) => 0
    case Returned(_) => 3
    case Uncounted(_) => 2
    case _ => 1
  }

  /** The work there is, listed, in hand, held or still to be spawned. */
  function Work(s: State): nat { Sum(TaskWork, s.tasks) + Sum(WorkerWork, s.workers) }

  /** A step that gets a task on: not the flags, not the idle loop, not a search that finds nothing. */
  predicate Busy(s: State, l: Label) {
    match l
    case Search(w) => FirstFor(s, w, 0) < |s.queue|
    case SwapIn(_) => true
    case Act(_) => true
    case Uncount(_) => true
    case Settle(_) => true
    case _ => false
  }

  function BusyOne(s: State, l: Label): nat { if Busy(s, l) then 1 else 0 }

  function Submitted(l: Label): nat { if l.Submit? then 2 + Steps(l.script) else 0 }

  // One step

  lemma {:induction false} TaskMoves(s: State, t: nat, x: Task)
    requires t < |s.tasks|
    ensures Work(SetTask(s, t, x)) + TaskWork(s.tasks[t]) == Work(s) + TaskWork(x)
  {
    SumUpdate(TaskWork, s.tasks, t, x);
  }

  lemma {:induction false} WorkerMoves(s: State, w: nat, k: Worker)
    requires w < |s.workers|
    ensures Work(SetWorker(s, w, k)) + WorkerWork(s.workers[w]) == Work(s) + WorkerWork(k)
  {
    SumUpdate(WorkerWork, s.workers, w, k);
  }

  lemma {:induction false} TaskComes(s: State, script: Script, asCallback: bool, pin: Pin)
    ensures Work(NewTask(s, script, asCallback, pin)) == Work(s) + 2 + Steps(script)
  {
    SumAppend(TaskWork, s.tasks, Task(script, if asCallback then None else Some(INIT), InList));
  }

  lemma {:induction false} SearchWorks(s: State, w: nat)
    requires Enabled(s, Search(w))
    ensures BusyOne(s, Search(w)) + Work(Apply(s, Search(w))) == Work(s)
  {
    var k := FirstFor(s, w, 0);
    if k == |s.queue| {
      WorkerMoves(s, w, s.workers[w].(phase := Empty));
    } else {
      var t := s.queue[k].task;
      var s1 := SetPhase(s, w, Picked(t));
      WorkerMoves(s, w, s.workers[w].(phase := Picked(t)));
      TaskMoves(s1, t, s.tasks[t].(place := InHand(w)));
    }
  }

  lemma {:induction false} SwapInWorks(s: State, w: nat, t: nat)
    requires w < |s.workers| && s.workers[w].phase == Picked(t) && t < |s.tasks| && Queueable(s.tasks[t].fiber)
    ensures 1 + Work(DoSwapIn(s, w, t)) == Work(s)
  {
    var spare := if s.tasks[t].fiber == None then Carrying else s.workers[w].spare;
    var k := s.workers[w].(phase := Running(t), spare := spare);
    WorkerMoves(s, w, k);
    TaskMoves(SetWorker(s, w, k), t, s.tasks[t].(fiber := Some(EXEC)));
  }

  lemma {:induction false} SwapOutWorks(s: State, w: nat, t: nat, rest: Script, st: FiberState)
    requires w < |s.workers| && s.workers[w].phase == Running(t) && t < |s.tasks| && s.tasks[t].fiber == Some(EXEC)
    requires Steps(s.tasks[t].script) == 3 + TaskWork(s.tasks[t].(script := rest, fiber := Some(st)))
    ensures 1 + Work(SwapOut(s, w, t, rest, st)) == Work(s)
  {
    var x := s.tasks[t].(script := rest, fiber := Some(st));
    TaskMoves(s, t, x);
    WorkerMoves(SetTask(s, t, x), w, s.workers[w].(phase := Returned(t)));
  }

  lemma {:induction false} ScheduleWorks(s: State, w: nat, t: nat)
    requires w < |s.workers| && t < |s.tasks| && s.tasks[t].fiber == Some(EXEC)
    requires s.tasks[t].script.Spawn? || s.tasks[t].script.Wake?
    ensures 1 + Work(DoAct(s, w, t)) == Work(s)
  {
    var x := s.tasks[t].(script := s.tasks[t].script.rest);
    var s1 := SetTask(s, t, x);
    TaskMoves(s, t, x);
    match s.tasks[t].script
    case Spawn(child, asCallback, target, _) => TaskComes(s1, child, asCallback, Resolve(target, w));
    case Wake(u, _, _) =>
      if IsHeld(s1, u) {
        TaskMoves(s1, u, s1.tasks[u].(place := InList));
      }
  }

  lemma {:induction false} ActWorks(s: State, w: nat, t: nat)
    requires w < |s.workers| && s.workers[w].phase == Running(t) && t < |s.tasks| && s.tasks[t].fiber == Some(EXEC)
    ensures 1 + Work(DoAct(s, w, t)) == Work(s)
  {
    match s.tasks[t].script
    case Finish => SwapOutWorks(s, w, t, Finish, TERM);
    case Throw => SwapOutWorks(s, w, t, Throw, EXCEPT);
    case YieldReady(rest) => SwapOutWorks(s, w, t, rest, READY);
    case YieldHold(rest) => SwapOutWorks(s, w, t, rest, HOLD);
    case _ => ScheduleWorks(s, w, t);
  }

  lemma {:induction false} SettleWorks(s: State, w: nat, t: nat)
    requires w < |s.workers| && s.workers[w].phase == Uncounted(t) && t < |s.tasks|
    requires PhaseMatches(Uncounted(t), s.tasks[t].fiber)
    ensures 1 + Work(DoSettle(s, w, t)) == Work(s)
  {
    var k := s.workers[w].(phase := Scan, spare := SpareAfter(s.workers[w].spare, s.tasks[t].fiber));
    var s1 := SetWorker(s, w, k);
    WorkerMoves(s, w, k);
    TaskMoves(s1, t, DoSettle(s, w, t).tasks[t]);
    SettleIsTwoMoves(s, w, t);
  }

  lemma {:induction false} SettleIsTwoMoves(s: State, w: nat, t: nat)
    requires w < |s.workers| && t < |s.tasks|
    ensures var s' := DoSettle(s, w, t);
      var k := s.workers[w].(phase := Scan, spare := SpareAfter(s.workers[w].spare, s.tasks[t].fiber));
      s'.tasks == s.tasks[t := s'.tasks[t]] && s'.workers == s.workers[w := k]
  {}

  lemma {:induction false} HandWorks(s: State, l: Label)
    requires Inv(s) && Enabled(s, l) && (l.SwapIn? || l.Act? || l.Uncount? || l.Settle?)
    ensures 1 + Work(Apply(s, l)) == Work(s)
  {
    var t := s.workers[l.w].phase.task;
    assert HandOk(s, l.w);
    assert TaskOk(s, t);
    match l
    case SwapIn(w) => SwapInWorks(s, w, t);
    case Act(w) => ActWorks(s, w, t);
    case Uncount(w) => WorkerMoves(s, w, s.workers[w].(phase := Uncounted(t)));
    case Settle(w) => SettleWorks(s, w, t);
  }

  lemma {:induction false} IdleWorks(s: State, l: Label)
    requires Enabled(s, l) && (l.Begin? || l.EnterIdle? || l.AskStopping? || l.LeaveIdle?)
    ensures Work(Apply(s, l)) == Work(s)
  {
    IdleMoves(s, l);
    WorkerMoves(s, l.w, Apply(s, l).workers[l.w]);
    assert Apply(s, l).tasks == s.tasks;
  }

  /** Each busy step uses up exactly one unit of work; no other step uses or brings any, submissions from
      outside excepted. */
  lemma {:induction false} StepWorks(s: State, l: Label)
    requires Inv(s) && Enabled(s, l)
    ensures BusyOne(s, l) + Work(Apply(s, l)) == Work(s) + Submitted(l)
  {
    match l
    case Start =>
    case RequestStop =>
    case FlagStop =>
    case CallRoot => WorkerMoves(s, 0, Apply(s, l).workers[0]);
    case Submit(script, asCallback, pin) => TaskComes(s, script, asCallback, pin);
    case SubmitHeld(t, _) => TaskMoves(s, t, s.tasks[t].(place := InList));
    case Search(w) => SearchWorks(s, w);
    case SwapIn(_) => HandWorks(s, l);
    case Act(_) => HandWorks(s, l);
    case Uncount(_) => HandWorks(s, l);
    case Settle(_) => HandWorks(s, l);
    case Begin(_) => IdleWorks(s, l);
    case EnterIdle(_) => IdleWorks(s, l);
    case AskStopping(_) => IdleWorks(s, l);
    case LeaveIdle(_) => IdleWorks(s, l);
  }

  // Runs

  function BusySteps(s: State, ls: seq<Label>): nat
    requires IsRun(s, ls)
    decreases |ls|
  {
    if ls == [] then 0 else BusyOne(s, ls[0]) + BusySteps(Apply(s, ls[0]), ls[1..])
  }

  function AllSubmitted(ls: seq<Label>): nat {
    if ls == [] then 0 else Submitted(ls[0]) + AllSubmitted(ls[1..])
  }

  /** Over any interleaving: the busy steps made and the work left are the work there was and what was
      submitted from outside. */
  lemma {:induction false} WorkConserved(s: State, ls: seq<Label>)
    requires Reachable(s) && IsRun(s, ls)
    ensures BusySteps(s, ls) + Work(Final(s, ls)) == Work(s) + AllSubmitted(ls)
    decreases |ls|
  {
    if ls != [] {
      ReachableInv(s);
      StepWorks(s, ls[0]);
      ReachableStep(s, ls[0]);
      WorkConserved(Apply(s, ls[0]), ls[1..]);
    }
  }

  // Endless runs

  /** A run without end, in which nothing more is submitted from outside. */
  ghost predicate Endless(states: nat -> State, labels: nat -> Label) {
    && Reachable(states(0))
    && forall k: nat :: NextIs(states(k), labels(k), states(k + 1))
  }

  ghost predicate NextIs(s: State, l: Label, s': State) { Enabled(s, l) && !l.Submit? && s' == Apply(s, l) }

  lemma {:induction false} EndlessReachable(states: nat -> State, labels: nat -> Label, k: nat)
    requires Endless(states, labels)
    ensures Reachable(states(k))
  {
    if k > 0 {
      EndlessReachable(states, labels, k - 1);
      assert NextIs(states(k - 1), labels(k - 1), states(k - 1 + 1));
      ReachableStep(states(k - 1), labels(k - 1));
    }
  }

  lemma {:induction false} WorkFalls(states: nat -> State, labels: nat -> Label, i: nat, j: nat)
    requires Endless(states, labels) && i <= j
    ensures Work(states(j)) <= Work(states(i))
    decreases j
  {
    if i < j {
      WorkFalls(states, labels, i, j - 1);
      EndlessReachable(states, labels, j - 1);
      ReachableInv(states(j - 1));
      assert NextIs(states(j - 1), labels(j - 1), states(j - 1 + 1));
      StepWorks(states(j - 1), labels(j - 1));
    }
  }

  /** From some point on an endless run consists of flags and idle loop steps only. */
  lemma {:induction false} EndlessRunsIdle(states: nat -> State, labels: nat -> Label, from: nat) returns (k: nat)
    requires Endless(states, labels)
    ensures from <= k && forall j: nat :: k <= j ==> !Busy(states(j), labels(j))
    decreases Work(states(from))
  {
    if j: nat :| from <= j && Busy(states(j), labels(j)) {
      WorkFalls(states, labels, from, j);
      EndlessReachable(states, labels, j);
      ReachableInv(states(j));
      assert NextIs(states(j), labels(j), states(j + 1));
      StepWorks(states(j), labels(j));
      k := EndlessRunsIdle(states, labels, j + 1);
    } else {
      k := from;
    }
  }
}
