/** The worker protocol of `Scheduler::run` as a step relation over any number of workers.
    One label is one atomic step: a block under `m_mutex`, one atomic counter update, or one
    stretch of code that touches nothing another thread can see. A run is a sequence of labels. */
module Protocol {
  import opened Scripts
  import opened Seqs

  datatype Pin = Any | On(worker: nat)

  /** `FiberAndThread` without the code, which lives in `tasks`. */
  datatype Entry = Entry(task: nat, pin: Pin)

  /** Who refers to a task: the list, a worker's local `fiberAndThread` or `callback_fiber`, the owner
      it yielded HOLD to, or nobody once it has ended: then its fiber is left as it is (`Done`) or, if
      the task never yielded, is the worker's spare again, reset and without code (`Recycled`).
      Recorded beside the task and nowhere consulted by the workers; the invariant ties it to the list
      and to the workers' hands. */
  datatype Place = InList | InHand(worker: nat) | Held | Done | Recycled

  /** `fiber` is None while the task is a bare callback that no fiber has carried yet. */
  datatype Task = Task(script: Script, fiber: Option<FiberState>, place: Place)

  /** The local `callback_fiber`: null, an idle object in some state, or lent to the task in hand. */
  datatype Spare = NoSpare | Parked(state: FiberState) | Carrying

  /** Where a worker stands in the loop of `run`. */
  datatype Phase =
    | Outside               // `run` not entered yet
    | Scan                  // about to lock and search the list
    | Picked(task: nat)     // entry taken, counted active
    | Running(task: nat)    // inside `swapIn`
    | Returned(task: nat)   // swapped back, still counted active
    | Uncounted(task: nat)  // active already decremented, task still in hand
    | Empty                 // the search found nothing
    | InIdle                // counted idle, inside the idle fiber
    | IdleBack              // swapped back from the idle fiber, still counted idle
    | Exited                // returned from `run`, or never had to enter it

  datatype Worker = Worker(phase: Phase, idleFiber: FiberState, spare: Spare)

  /** `enqueued` and `dispatched` are the logs of all pushes onto and removals from the list. */
  datatype State = State(
    queue: seq<Entry>,
    tasks: seq<Task>,
    workers: seq<Worker>,
    caller: bool,           // worker 0 is the thread that constructed the scheduler
    active: int,
    idle: int,
    started: bool,
    autoStop: bool,
    stopping: bool,
    enqueued: seq<Entry>,
    dispatched: seq<Entry>)

  datatype Label =
    | Start
    | Begin(w: nat)
    | RequestStop
    | FlagStop
    | CallRoot
    | Submit(script: Script, asCallback: bool, pin: Pin)
    | SubmitHeld(task: nat, pin: Pin)
    | Search(w: nat)
    | SwapIn(w: nat)
    | Act(w: nat)
    | Uncount(w: nat)
    | Settle(w: nat)
    | EnterIdle(w: nat)
    | AskStopping(w: nat)
    | LeaveIdle(w: nat)

  predicate HasTask(p: Phase) { p.Picked? || p.Running? || p.Returned? || p.Uncounted? }

  /** `stopping()`, evaluated under the lock. */
  predicate Stopping(s: State) {
    s.autoStop && s.stopping && s.queue == [] && s.active == 0
  }

  function NewWorker(): Worker { Worker(Outside, INIT, NoSpare) }

  function Init(n: nat, caller: bool): State
    requires n > 0
  {
    State([], [], seq(n, i => NewWorker()), caller, 0, 0, false, false, true, [], [])
  }

  function Resolve(target: Target, w: nat): Pin {
    match target
    case AnyThread => Any
    case OwnThread => On(w)
    case OnThread(v) => On(v)
  }

  /** `scheduleNoLock`: push at the back. */
  function Push(s: State, e: Entry): State {
    s.(queue := s.queue + [e], enqueued := s.enqueued + [e])
  }

  function NewTask(s: State, script: Script, asCallback: bool, pin: Pin): State {
    var fiber := if asCallback then None else Some(INIT);
    Push(s.(tasks := s.tasks + [Task(script, fiber, InList)]), Entry(|s.tasks|, pin))
  }

  predicate IsHeld(s: State, t: nat) { t < |s.tasks| && s.tasks[t].place == Held }

  function WakeHeld(s: State, t: nat, pin: Pin): State
    requires t < |s.tasks|
  {
    Push(SetTask(s, t, s.tasks[t].(place := InList)), Entry(t, pin))
  }

  predicate MayTake(s: State, e: Entry, w: nat) {
    && (e.pin == Any || e.pin == On(w))
    && e.task < |s.tasks|
    && s.tasks[e.task].fiber != Some(EXEC)
  }

  /** The search loop: the first entry at or after `i` that worker `w` may take. */
  function FirstFor(s: State, w: nat, i: nat): (r: nat)
    requires i <= |s.queue|
    ensures i <= r <= |s.queue|
    ensures r < |s.queue| ==> MayTake(s, s.queue[r], w)
    ensures forall j :: i <= j < r ==> !MayTake(s, s.queue[j], w)
    decreases |s.queue| - i
  {
    if i == |s.queue| || MayTake(s, s.queue[i], w) then i else FirstFor(s, w, i + 1)
  }

  function SetPhase(s: State, w: nat, p: Phase): State
    requires w < |s.workers|
  {
    SetWorker(s, w, s.workers[w].(phase := p))
  }

  function SetTask(s: State, t: nat, task: Task): State
    requires t < |s.tasks|
  {
    s.(tasks := s.tasks[t := task])
  }

  function SetWorker(s: State, w: nat, k: Worker): State
    requires w < |s.workers|
  {
    s.(workers := s.workers[w := k])
  }

  predicate Enabled(s: State, l: Label) {
    match l
    case Start => !s.started && !s.autoStop
    case Begin(w) => s.started && w < |s.workers| && s.workers[w].phase == Outside && !(s.caller && w == 0)
    case RequestStop => !s.autoStop
    case FlagStop => s.autoStop && !s.stopping
    case CallRoot => s.caller && |s.workers| > 0 && s.workers[0].phase == Outside && s.autoStop && s.stopping
    case Submit(_, _, _) => !s.autoStop
    case SubmitHeld(t, _) => !s.autoStop && IsHeld(s, t)
    case Search(w) => w < |s.workers| && s.workers[w].phase == Scan
    case SwapIn(w) => w < |s.workers| && s.workers[w].phase.Picked? && s.workers[w].phase.task < |s.tasks|
    case Act(w) => w < |s.workers| && s.workers[w].phase.Running? && s.workers[w].phase.task < |s.tasks|
    case Uncount(w) => w < |s.workers| && s.workers[w].phase.Returned?
    case Settle(w) => w < |s.workers| && s.workers[w].phase.Uncounted? && s.workers[w].phase.task < |s.tasks|
    case EnterIdle(w) => w < |s.workers| && s.workers[w].phase.Empty?
    case AskStopping(w) => w < |s.workers| && s.workers[w].phase.InIdle?
    case LeaveIdle(w) => w < |s.workers| && s.workers[w].phase.IdleBack?
  }

  function DoSearch(s: State, w: nat): State
    requires w < |s.workers|
  {
    var k := FirstFor(s, w, 0);
    if k == |s.queue| then SetPhase(s, w, Empty)
    else Take(s, w, k)
  }

  function Take(s: State, w: nat, k: nat): State
    requires w < |s.workers| && k < |s.queue| && s.queue[k].task < |s.tasks|
  {
    var e := s.queue[k];
    SetTask(SetPhase(s, w, Picked(e.task)), e.task, s.tasks[e.task].(place := InHand(w)))
    .(queue := s.queue[..k] + s.queue[k + 1..],
      active := s.active + 1,
      dispatched := s.dispatched + [e])
  }

  /** A callback is put on the worker's spare fiber (built if null); a fiber is swapped in as it is. */
  function DoSwapIn(s: State, w: nat, t: nat): State
    requires w < |s.workers| && t < |s.tasks|
  {
    var spare := if s.tasks[t].fiber == None then Carrying else s.workers[w].spare;
    SetTask(SetWorker(s, w, s.workers[w].(phase := Running(t), spare := spare)),
            t, s.tasks[t].(fiber := Some(EXEC)))
  }

  /** The running task stops in state `st` with `rest` still to do. */
  function SwapOut(s: State, w: nat, t: nat, rest: Script, st: FiberState): State
    requires w < |s.workers| && t < |s.tasks|
  {
    SetPhase(SetTask(s, t, s.tasks[t].(script := rest, fiber := Some(st))), w, Returned(t))
  }

  /** One action of the running task. */
  function DoAct(s: State, w: nat, t: nat): State
    requires w < |s.workers| && t < |s.tasks|
  {
    match s.tasks[t].script
    case Finish => SwapOut(s, w, t, Finish, TERM)
    case Throw => SwapOut(s, w, t, Throw, EXCEPT)
    case YieldReady(rest) => SwapOut(s, w, t, rest, READY)
    case YieldHold(rest) => SwapOut(s, w, t, rest, HOLD)
    case Spawn(child, asCallback, target, rest) =>
      NewTask(SetTask(s, t, s.tasks[t].(script := rest)), child, asCallback, Resolve(target, w))
    case Wake(u, target, rest) =>
      var s1 := SetTask(s, t, s.tasks[t].(script := rest));
      if IsHeld(s1, u) then WakeHeld(s1, u, Resolve(target, w)) else s1
  }

  /** What becomes of `callback_fiber` when the task it carries stops in state `st`. */
  function SpareAfter(spare: Spare, st: Option<FiberState>): Spare {
    if spare != Carrying then spare
    else if st == Some(TERM) || st == Some(EXCEPT) then Parked(INIT)
    else NoSpare
  }

  /** After the decrement: requeue (without the pin), drop, or leave to the owner. */
  function DoSettle(s: State, w: nat, t: nat): State
    requires w < |s.workers| && t < |s.tasks|
  {
    var task := s.tasks[t];
    var s1 := SetWorker(s, w, s.workers[w].(phase := Scan, spare := SpareAfter(s.workers[w].spare, task.fiber)));
    if task.fiber == Some(READY) then
      Push(SetTask(s1, t, task.(place := InList)), Entry(t, Any))
    else if task.fiber == Some(TERM) || task.fiber == Some(EXCEPT) then
      SetTask(s1, t, task.(place := if s.workers[w].spare == Carrying then Recycled else Done))
    else
      SetTask(s1, t, task.(fiber := Some(HOLD), place := Held))
  }

  function DoEnterIdle(s: State, w: nat): State
    requires w < |s.workers|
  {
    if s.workers[w].idleFiber == TERM then SetPhase(s, w, Exited)
    else
      SetWorker(s, w, s.workers[w].(phase := InIdle, idleFiber := EXEC)).(idle := s.idle + 1)
  }

  function DoAskStopping(s: State, w: nat): State
    requires w < |s.workers|
  {
    var st := if Stopping(s) then TERM else HOLD;
    SetWorker(s, w, s.workers[w].(phase := IdleBack, idleFiber := st))
  }

  function DoLeaveIdle(s: State, w: nat): State
    requires w < |s.workers|
  {
    var st := s.workers[w].idleFiber;
    var st' := if st != TERM && st != EXCEPT then HOLD else st;
    SetWorker(s, w, s.workers[w].(phase := Scan, idleFiber := st')).(idle := s.idle - 1)
  }

  function Apply(s: State, l: Label): State
    requires Enabled(s, l)
  {
    match l
    case Start => s.(started := true, stopping := false)
    case Begin(w) => SetPhase(s, w, Scan)
    case RequestStop => s.(autoStop := true)
    case FlagStop => s.(stopping := true)
    case CallRoot => SetPhase(s, 0, if Stopping(s) then Exited else Scan)
    case Submit(script, asCallback, pin) => NewTask(s, script, asCallback, pin)
    case SubmitHeld(t, pin) => WakeHeld(s, t, pin)
    case Search(w) => DoSearch(s, w)
    case SwapIn(w) => DoSwapIn(s, w, s.workers[w].phase.task)
    case Act(w) => DoAct(s, w, s.workers[w].phase.task)
    case Uncount(w) => SetPhase(s, w, Uncounted(s.workers[w].phase.task)).(active := s.active - 1)
    case Settle(w) => DoSettle(s, w, s.workers[w].phase.task)
    case EnterIdle(w) => DoEnterIdle(s, w)
    case AskStopping(w) => DoAskStopping(s, w)
    case LeaveIdle(w) => DoLeaveIdle(s, w)
  }

  // What a step does to the list and to the workers

  predicate Pushes(s: State, s': State) {
    && |s'.queue| == |s.queue| + 1
    && s'.queue == s.queue + [s'.queue[|s.queue|]]
    && s'.enqueued == s.enqueued + [s'.queue[|s.queue|]]
    && s'.dispatched == s.dispatched
  }

  predicate LeavesList(s: State, s': State) {
    s'.queue == s.queue && s'.enqueued == s.enqueued && s'.dispatched == s.dispatched
  }

  predicate SameFlags(s: State, s': State) {
    s'.caller == s.caller && s'.started == s.started && s'.autoStop == s.autoStop && s'.stopping == s.stopping
  }

  /** What a running task does: the list is left alone or gets one more entry, and only the worker it runs
      on may move, which it does when the task stops. */
  predicate Acted(s: State, s': State, w: nat, t: nat)
    requires w < |s.workers|
  {
    && (LeavesList(s, s') || Pushes(s, s'))
    && SameFlags(s, s')
    && |s'.workers| == |s.workers| && |s.tasks| <= |s'.tasks|
    && (s'.workers == s.workers || s'.workers == s.workers[w := s.workers[w].(phase := Returned(t))])
  }

  lemma {:induction false} SwapOutEffect(s: State, w: nat, t: nat, rest: Script, st: FiberState)
    requires w < |s.workers| && t < |s.tasks|
    ensures Acted(s, SwapOut(s, w, t, rest, st), w, t)
  {}

  lemma {:induction false} ScheduleEffect(s: State, w: nat, t: nat)
    requires w < |s.workers| && t < |s.tasks| && (s.tasks[t].script.Spawn? || s.tasks[t].script.Wake?)
    ensures Acted(s, DoAct(s, w, t), w, t)
  {}

  lemma {:induction false} ActEffect(s: State, w: nat)
    requires Enabled(s, Act(w))
    ensures Acted(s, Apply(s, Act(w)), w, s.workers[w].phase.task)
  {
    var t := s.workers[w].phase.task;
    match s.tasks[t].script
    case Finish => SwapOutEffect(s, w, t, Finish, TERM);
    case Throw => SwapOutEffect(s, w, t, Throw, EXCEPT);
    case YieldReady(rest) => SwapOutEffect(s, w, t, rest, READY);
    case YieldHold(rest) => SwapOutEffect(s, w, t, rest, HOLD);
    case Spawn(_, _, _, _) => ScheduleEffect(s, w, t);
    case Wake(_, _, _) => ScheduleEffect(s, w, t);
  }

  /** The worker that makes the step; none for calls from outside. */
  function Actor(l: Label): Option<nat> {
    match l
    case CallRoot => Some(0)
    case Start => None
    case RequestStop => None
    case FlagStop => None
    case Submit(_, _, _) => None
    case SubmitHeld(_, _) => None
    case _ => Some(l.w)
  }

  /** Flags and other workers stay, and no task is added. */
  predicate OnlyMoves(s: State, s': State, w: nat) {
    && w < |s.workers| == |s'.workers| && SameFlags(s, s')
    && s'.workers == s.workers[w := s'.workers[w]]
    && |s'.tasks| == |s.tasks|
  }

  lemma {:induction false} SearchMoves(s: State, w: nat)
    requires Enabled(s, Search(w))
    ensures OnlyMoves(s, Apply(s, Search(w)), w)
  {}

  lemma {:induction false} HandMoves(s: State, l: Label)
    requires Enabled(s, l) && (l.SwapIn? || l.Uncount? || l.Settle?)
    ensures OnlyMoves(s, Apply(s, l), l.w)
  {}

  lemma {:induction false} IdleMoves(s: State, l: Label)
    requires Enabled(s, l) && (l.EnterIdle? || l.AskStopping? || l.LeaveIdle? || l.Begin?)
    ensures OnlyMoves(s, Apply(s, l), l.w)
  {}

  /** Who moves the flags, and which workers a step leaves alone; tasks are never forgotten. */
  predicate Moved(s: State, l: Label, s': State) {
    && s'.caller == s.caller
    && s'.started == (s.started || l == Start)
    && s'.autoStop == (s.autoStop || l == RequestStop)
    && (l != Start ==> s'.stopping == (s.stopping || l == FlagStop))
    && |s'.workers| == |s.workers| && |s.tasks| <= |s'.tasks|
    && forall v :: 0 <= v < |s.workers| && Actor(l) != Some(v) ==> s'.workers[v] == s.workers[v]
  }

  lemma {:induction false} ActorMoves(s: State, l: Label)
    requires Enabled(s, l)
    ensures Moved(s, l, Apply(s, l))
  {
    match l
    case Search(w) => SearchMoves(s, w);
    case SwapIn(_) => HandMoves(s, l);
    case Uncount(_) => HandMoves(s, l);
    case Settle(_) => HandMoves(s, l);
    case Act(w) => ActEffect(s, w);
    case EnterIdle(_) => IdleMoves(s, l);
    case AskStopping(_) => IdleMoves(s, l);
    case LeaveIdle(_) => IdleMoves(s, l);
    case Begin(_) => IdleMoves(s, l);
    case _ =>
  }

  predicate MayPush(l: Label) { l.Submit? || l.SubmitHeld? || l.Act? || l.Settle? }

  lemma {:induction false} ListEffect(s: State, l: Label)
    requires Enabled(s, l) && !l.Search?
    ensures LeavesList(s, Apply(s, l)) || (Pushes(s, Apply(s, l)) && MayPush(l))
  {
    if l.Act? {
      ActEffect(s, l.w);
    }
  }

  /** The assertions the source makes in the step `l`: `swapIn` and `reset` on the fibers involved, the
      one an ended fiber runs into when it is resumed, and the destructors of the local fibers when
      `run` returns. */
  predicate AssertionsHold(s: State, l: Label)
    requires Enabled(s, l)
  {
    match l
    case SwapIn(w) =>
      var t := s.workers[w].phase.task;
      (match s.tasks[t].fiber
       case Some(st) => st != EXEC && st != TERM && st != EXCEPT
       case None => Resettable(s.workers[w].spare))
    case Settle(w) =>
      var st := s.tasks[s.workers[w].phase.task].fiber;
      s.workers[w].spare == Carrying && st != Some(READY) && st != Some(HOLD) ==>
        st == Some(TERM) || st == Some(EXCEPT)
    case EnterIdle(w) =>
      var st := s.workers[w].idleFiber;
      st != EXEC && (st == TERM ==> Resettable(s.workers[w].spare))
    case _ => true
  }

  predicate Resettable(spare: Spare) {
    spare == NoSpare || (spare.Parked? && spare.state in {TERM, INIT, EXCEPT})
  }

  // Runs

  ghost predicate IsRun(s: State, ls: seq<Label>)
    decreases |ls|
  {
    ls == [] || (Enabled(s, ls[0]) && IsRun(Apply(s, ls[0]), ls[1..]))
  }

  /** The state after the first `k` steps of a run. */
  function At(s: State, ls: seq<Label>, k: nat): State
    requires IsRun(s, ls) && k <= |ls|
    decreases k
  {
    if k == 0 then s else At(Apply(s, ls[0]), ls[1..], k - 1)
  }

  function Final(s: State, ls: seq<Label>): State
    requires IsRun(s, ls)
  {
    At(s, ls, |ls|)
  }
}
