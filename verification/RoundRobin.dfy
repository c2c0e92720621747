/** A plain round-robin interpreter of scripts: no fibers, no counters, no idle loop.
    It is what `Scheduler(1, true)` is meant to compute. */
module RoundRobin {
  import opened Scripts
  import opened Seqs

  /** `Elsewhere`: listed for a thread other than the one there is. */
  datatype Status = Queued | Elsewhere | Active | Held | Done

  datatype Task = Task(script: Script, status: Status)

  /** Tasks are numbered in the order they were accepted; `queue` lists those waiting to run on `thread`. */
  datatype Machine = Machine(tasks: seq<Task>, queue: seq<nat>, thread: nat)

  /** Task `task` was resumed with `script` still to do. */
  datatype Dispatch = Dispatch(task: nat, script: Script)

  predicate Ready(m: Machine) {
    && (forall i :: 0 <= i < |m.queue| ==> m.queue[i] < |m.tasks| && m.tasks[m.queue[i]].status == Queued)
    && (forall i, j :: 0 <= i < j < |m.queue| ==> m.queue[i] != m.queue[j])
  }

  predicate Stops(script: Script) { !script.Spawn? && !script.Wake? }

  predicate IsHeld(m: Machine, t: nat) { t < |m.tasks| && m.tasks[t].status == Held }

  /** The target admits the one thread there is. */
  predicate PinsTo(target: Target, thread: nat) { target.OnThread? ==> target.thread == thread }

  function Listed(here: bool): Status { if here then Queued else Elsewhere }

  /** Accept a new task, at the back of the queue if it may run here. */
  function Accept(m: Machine, script: Script, here: bool): Machine {
    m.(tasks := m.tasks + [Task(script, Listed(here))], queue := m.queue + if here then [|m.tasks|] else [])
  }

  function Resume(m: Machine, t: nat, here: bool): Machine
    requires IsHeld(m, t)
  {
    m.(tasks := m.tasks[t := m.tasks[t].(status := Listed(here))], queue := m.queue + if here then [t] else [])
  }

  function Advance(m: Machine, t: nat): Machine
    requires t < |m.tasks| && !Stops(m.tasks[t].script)
  {
    m.(tasks := m.tasks[t := m.tasks[t].(script := m.tasks[t].script.rest)])
  }

  /** One scheduling action of the active task `t`. */
  function ActOnce(m: Machine, t: nat): Machine
    requires t < |m.tasks| && !Stops(m.tasks[t].script)
  {
    var m1 := Advance(m, t);
    match m.tasks[t].script
    case Spawn(child, _, target, _) => Accept(m1, child, PinsTo(target, m.thread))
    case Wake(u, target, _) => if IsHeld(m1, u) then Resume(m1, u, PinsTo(target, m.thread)) else m1
    case _ => m1
  }

  /** Run the active task `t` up to the point where it stops. */
  function Segment(m: Machine, t: nat): (r: Machine)
    requires t < |m.tasks|
    ensures t < |r.tasks| && Stops(r.tasks[t].script)
    decreases m.tasks[t].script
  {
    if Stops(m.tasks[t].script) then m else Segment(ActOnce(m, t), t)
  }

  /** What becomes of `t` where it stops: requeued at the back, held, or done. */
  function Settle(m: Machine, t: nat): Machine
    requires t < |m.tasks| && Stops(m.tasks[t].script)
  {
    match m.tasks[t].script
    case YieldReady(rest) => m.(tasks := m.tasks[t := Task(rest, Queued)], queue := m.queue + [t])
    case YieldHold(rest) => m.(tasks := m.tasks[t := Task(rest, Held)])
    case _ => m.(tasks := m.tasks[t := m.tasks[t].(status := Done)])
  }

  /** The head of the queue becomes active. */
  function Pick(m: Machine): Machine
    requires m.queue != [] && m.queue[0] < |m.tasks|
  {
    var t := m.queue[0];
    m.(tasks := m.tasks[t := m.tasks[t].(status := Active)], queue := m.queue[1..])
  }

  function Turn(m: Machine): Machine
    requires m.queue != [] && m.queue[0] < |m.tasks|
  {
    var t := m.queue[0];
    Settle(Segment(Pick(m), t), t)
  }

  // Turns use up segments

  function Remaining(t: Task): nat {
    match t.status
    case Active => Residue(t.script)
    case Done => 0
    case _ => 1 + Residue(t.script)
  }

  function Total(m: Machine): nat { Sum(Remaining, m.tasks) }

  lemma {:induction false} TaskChange(m: Machine, t: nat, x: Task, queue: seq<nat>)
    requires t < |m.tasks|
    ensures Total(m.(tasks := m.tasks[t := x], queue := queue)) + Remaining(m.tasks[t]) == Total(m) + Remaining(x)
  {
    SumUpdate(Remaining, m.tasks, t, x);
  }

  lemma {:induction false} OneTaskMore(m: Machine, x: Task)
    requires Ready(m)
    ensures Ready(m.(tasks := m.tasks + [x])) && forall j :: 0 <= j < |m.queue| ==> m.queue[j] < |m.tasks|
    ensures x.status != Held ==> forall t: nat :: IsHeld(m.(tasks := m.tasks + [x]), t) == IsHeld(m, t)
  {}

  lemma {:induction false} AcceptKeeps(m: Machine, script: Script, here: bool)
    requires Ready(m)
    ensures Ready(Accept(m, script, here)) && Total(Accept(m, script, here)) == Total(m) + 1 + Residue(script)
  {
    SumAppend(Remaining, m.tasks, Task(script, Listed(here)));
  }

  lemma {:induction false} ResumeKeeps(m: Machine, t: nat, here: bool)
    requires Ready(m) && IsHeld(m, t)
    ensures Ready(Resume(m, t, here)) && Total(Resume(m, t, here)) == Total(m)
  {
    TaskChange(m, t, m.tasks[t].(status := Listed(here)), Resume(m, t, here).queue);
  }

  lemma {:induction false} AdvanceKeeps(m: Machine, t: nat)
    requires Ready(m) && t < |m.tasks| && m.tasks[t].status == Active && !Stops(m.tasks[t].script)
    ensures Ready(Advance(m, t)) && Advance(m, t).tasks[t].status == Active
    ensures Total(Advance(m, t)) + Residue(m.tasks[t].script) == Total(m) + Residue(m.tasks[t].script.rest)
  {
    TaskChange(m, t, Advance(m, t).tasks[t], m.queue);
  }

  lemma {:induction false} ActOnceKeeps(m: Machine, t: nat)
    requires Ready(m) && t < |m.tasks| && m.tasks[t].status == Active && !Stops(m.tasks[t].script)
    ensures Ready(ActOnce(m, t)) && Total(ActOnce(m, t)) == Total(m)
    ensures ActOnce(m, t).tasks[t].status == Active
  {
    var m1 := Advance(m, t);
    AdvanceKeeps(m, t);
    match m.tasks[t].script
    case Spawn(child, _, target, _) => AcceptKeeps(m1, child, PinsTo(target, m.thread));
    case Wake(u, target, _) =>
      if IsHeld(m1, u) {
        ResumeKeeps(m1, u, PinsTo(target, m.thread));
      }
  }

  lemma {:induction false} SegmentKeeps(m: Machine, t: nat)
    requires Ready(m) && t < |m.tasks| && m.tasks[t].status == Active
    ensures Ready(Segment(m, t)) && Total(Segment(m, t)) == Total(m)
    ensures Segment(m, t).tasks[t].status == Active
    decreases m.tasks[t].script
  {
    if !Stops(m.tasks[t].script) {
      ActOnceKeeps(m, t);
      SegmentKeeps(ActOnce(m, t), t);
    }
  }

  lemma {:induction false} PickKeeps(m: Machine)
    requires Ready(m) && m.queue != []
    ensures Ready(Pick(m)) && Pick(m).tasks[m.queue[0]].status == Active
    ensures Total(Pick(m)) + 1 == Total(m)
  {
    var t := m.queue[0];
    TaskChange(m, t, m.tasks[t].(status := Active), m.queue[1..]);
  }

  lemma {:induction false} SettleKeeps(m: Machine, t: nat)
    requires Ready(m) && t < |m.tasks| && m.tasks[t].status == Active && Stops(m.tasks[t].script)
    ensures Ready(Settle(m, t)) && Total(Settle(m, t)) == Total(m)
  {
    match m.tasks[t].script
    case YieldReady(rest) => TaskChange(m, t, Task(rest, Queued), m.queue + [t]);
    case YieldHold(rest) => TaskChange(m, t, Task(rest, Held), m.queue);
    case Finish => TaskChange(m, t, Task(Finish, Done), m.queue);
    case Throw => TaskChange(m, t, Task(Throw, Done), m.queue);
  }

  lemma {:induction false} TurnKeeps(m: Machine)
    requires Ready(m) && m.queue != []
    ensures Ready(Turn(m)) && Total(Turn(m)) + 1 == Total(m)
  {
    var t := m.queue[0];
    PickKeeps(m);
    SegmentKeeps(Pick(m), t);
    SettleKeeps(Segment(Pick(m), t), t);
  }

  /** All dispatches until the queue is empty. */
  function Trace(m: Machine): seq<Dispatch>
    requires Ready(m)
    decreases Total(m)
  {
    if m.queue == [] then []
    else
      TurnKeeps(m);
      [Dispatch(m.queue[0], m.tasks[m.queue[0]].script)] + Trace(Turn(m))
  }

  /** The machine once the queue is empty. */
  function Outcome(m: Machine): Machine
    requires Ready(m)
    decreases Total(m)
  {
    if m.queue == [] then m
    else
      TurnKeeps(m);
      Outcome(Turn(m))
  }

  /** The interpreter makes exactly one dispatch per segment; what it leaves over are held tasks. */
  lemma {:induction false} TraceUsesSegments(m: Machine)
    requires Ready(m)
    ensures Ready(Outcome(m)) && Outcome(m).queue == []
    ensures |Trace(m)| + Total(Outcome(m)) == Total(m)
    decreases Total(m)
  {
    if m.queue != [] {
      TurnKeeps(m);
      TraceUsesSegments(Turn(m));
    }
  }

  /** Where a machine that has already made the dispatches `sofar` ends up, and with which trace. */
  function Course(sofar: seq<Dispatch>, m: Machine): (seq<Dispatch>, Machine)
    requires Ready(m)
  {
    (sofar + Trace(m), Outcome(m))
  }

  function Head(m: Machine): Dispatch
    requires m.queue != [] && m.queue[0] < |m.tasks|
  {
    Dispatch(m.queue[0], m.tasks[m.queue[0]].script)
  }

  lemma {:induction false} TurnStaysOnCourse(sofar: seq<Dispatch>, m: Machine)
    requires Ready(m) && m.queue != []
    ensures Ready(Turn(m)) && Course(sofar + [Head(m)], Turn(m)) == Course(sofar, m)
  {
    TurnKeeps(m);
    assert sofar + [Head(m)] + Trace(Turn(m)) == sofar + ([Head(m)] + Trace(Turn(m)));
  }

  lemma {:induction false} CourseEnds(sofar: seq<Dispatch>, m: Machine)
    requires m.queue == []
    ensures Ready(m) && Course(sofar, m) == (sofar, m)
  {
    assert sofar + [] == sofar;
  }

  // Pins to other threads

  /** No task is listed for another thread. */
  predicate NoneElsewhere(m: Machine) { forall t :: 0 <= t < |m.tasks| ==> m.tasks[t].status != Elsewhere }

  /** Run to its end, the machine leaves nothing listed for another thread. */
  predicate EndsHere(m: Machine)
    requires Ready(m)
  {
    NoneElsewhere(Outcome(m))
  }

  lemma {:induction false} HasEnded(m: Machine)
    requires Ready(m) && EndsHere(m) && m.queue == []
    ensures NoneElsewhere(m)
  {}

  lemma {:induction false} SameEnd(sofar: seq<Dispatch>, m: Machine, sofar': seq<Dispatch>, m': Machine)
    requires Ready(m) && Ready(m') && Course(sofar, m) == Course(sofar', m')
    ensures EndsHere(m) == EndsHere(m')
  {}

  /** The script schedules only on the one thread there is. */
  predicate PinsOk(script: Script, thread: nat) {
    match script
    case YieldReady(rest) => PinsOk(rest, thread)
    case YieldHold(rest) => PinsOk(rest, thread)
    case Spawn(child, _, target, rest) => PinsTo(target, thread) && PinsOk(child, thread) && PinsOk(rest, thread)
    case Wake(_, target, rest) => PinsTo(target, thread) && PinsOk(rest, thread)
    case _ => true
  }

  predicate AllPinsOk(m: Machine) {
    NoneElsewhere(m) && forall t :: 0 <= t < |m.tasks| ==> PinsOk(m.tasks[t].script, m.thread)
  }

  lemma {:induction false} ActOncePinsOk(m: Machine, t: nat)
    requires AllPinsOk(m) && t < |m.tasks| && !Stops(m.tasks[t].script)
    ensures AllPinsOk(ActOnce(m, t))
  {
    assert PinsOk(m.tasks[t].script, m.thread);
    match m.tasks[t].script
    case Spawn(_, _, _, _) =>
    case Wake(_, _, _) =>
  }

  lemma {:induction false} SegmentPinsOk(m: Machine, t: nat)
    requires AllPinsOk(m) && t < |m.tasks|
    ensures AllPinsOk(Segment(m, t))
    decreases m.tasks[t].script
  {
    if !Stops(m.tasks[t].script) {
      ActOncePinsOk(m, t);
      SegmentPinsOk(ActOnce(m, t), t);
    }
  }

  lemma {:induction false} SettlePinsOk(m: Machine, t: nat)
    requires AllPinsOk(m) && t < |m.tasks| && Stops(m.tasks[t].script)
    ensures AllPinsOk(Settle(m, t))
  {
    assert PinsOk(m.tasks[t].script, m.thread);
  }

  /** If nothing is listed for another thread, and no script asks for one, nothing ever is. */
  lemma {:induction false} OutcomePinsOk(m: Machine)
    requires Ready(m) && AllPinsOk(m)
    ensures AllPinsOk(Outcome(m))
    decreases Total(m)
  {
    if m.queue != [] {
      var t := m.queue[0];
      TurnKeeps(m);
      SegmentPinsOk(Pick(m), t);
      SettlePinsOk(Segment(Pick(m), t), t);
      OutcomePinsOk(Turn(m));
    }
  }
}
