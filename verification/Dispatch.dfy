/** The order in which entries are dispatched, and how many dispatches there can be. */
module Dispatch {
  import opened Scripts
  import opened Seqs
  import opened Protocol
  import opened Invariant
  import opened Ownership
  import Shutdown

  // Order

  /** A log or list restricted to the entries with one pin. */
  function For(pin: Pin, log: seq<Entry>): seq<Entry> {
    Filter(HasPin(pin), log)
  }

  function HasPin(pin: Pin): Entry -> bool { (e: Entry) => e.pin == pin }

  ghost predicate InOrder(s: State, pin: Pin) {
    For(pin, s.enqueued) == For(pin, s.dispatched) + For(pin, s.queue)
  }

  /** The entry a search takes is the first with its pin. */
  lemma {:induction false} FirstWithItsPin(s: State, w: nat, k: nat, i: nat)
    requires Inv(s) && w < |s.workers| && k == FirstFor(s, w, 0) < |s.queue| && i < k
    ensures s.queue[i].pin != s.queue[k].pin
  {
    assert TaskOk(s, s.queue[i].task);
  }

  lemma {:induction false} TakeInOrder(s: State, w: nat, k: nat, pin: Pin)
    requires Inv(s) && w < |s.workers| && k == FirstFor(s, w, 0) < |s.queue| && InOrder(s, pin)
    ensures InOrder(Take(s, w, k), pin)
  {
    forall i | 0 <= i < k && s.queue[k].pin == pin ensures !HasPin(pin)(s.queue[i]) {
      FirstWithItsPin(s, w, k, i);
    }
    MoveHead(s.enqueued, s.dispatched, s.queue, k, pin);
  }

  lemma {:induction false} MoveHead(enqueued: seq<Entry>, dispatched: seq<Entry>, queue: seq<Entry>, k: nat, pin: Pin)
    requires For(pin, enqueued) == For(pin, dispatched) + For(pin, queue) && k < |queue|
    requires queue[k].pin == pin ==> forall i :: 0 <= i < k ==> !HasPin(pin)(queue[i])
    ensures For(pin, enqueued) == For(pin, dispatched + [queue[k]]) + For(pin, queue[..k] + queue[k + 1..])
  {
    FilterRemove(HasPin(pin), queue, k);
    FilterAppend(HasPin(pin), dispatched, queue[k]);
  }

  lemma {:induction false} AddTail(enqueued: seq<Entry>, dispatched: seq<Entry>, queue: seq<Entry>, e: Entry, pin: Pin)
    requires For(pin, enqueued) == For(pin, dispatched) + For(pin, queue)
    ensures For(pin, enqueued + [e]) == For(pin, dispatched) + For(pin, queue + [e])
  {
    FilterAppend(HasPin(pin), queue, e);
    FilterAppend(HasPin(pin), enqueued, e);
  }

  lemma {:induction false} StepInOrder(s: State, l: Label, pin: Pin)
    requires Inv(s) && Enabled(s, l) && InOrder(s, pin)
    ensures InOrder(Apply(s, l), pin)
  {
    if l.Search? {
      if FirstFor(s, l.w, 0) < |s.queue| {
        TakeInOrder(s, l.w, FirstFor(s, l.w, 0), pin);
      }
    } else {
      ListEffect(s, l);
      if Pushes(s, Apply(s, l)) {
        AddTail(s.enqueued, s.dispatched, s.queue, Apply(s, l).queue[|s.queue|], pin);
      }
    }
  }

  lemma {:induction false} RunInOrder(s: State, ls: seq<Label>, pin: Pin)
    requires Inv(s) && IsRun(s, ls) && InOrder(s, pin)
    ensures InOrder(Final(s, ls), pin)
    decreases |ls|
  {
    if ls != [] {
      StepInOrder(s, ls[0], pin);
      StepKeepsInv(s, ls[0]);
      RunInOrder(Apply(s, ls[0]), ls[1..], pin);
    }
  }

  /** First in, first out per target: what has been dispatched with a given pin is a prefix of what was
      enqueued with it, and the list holds exactly the rest, in order. */
  lemma {:induction false} FifoPerTarget(s: State, pin: Pin)
    requires Reachable(s)
    ensures For(pin, s.enqueued) == For(pin, s.dispatched) + For(pin, s.queue)
  {
    var n: nat, caller: bool, ls: seq<Label> :|
      n > 0 && IsRun(Init(n, caller), ls) && s == Final(Init(n, caller), ls);
    InitKeepsInv(n, caller);
    RunInOrder(Init(n, caller), ls, pin);
  }

  // Bounded bypass

  function Searches(ls: seq<Label>): nat {
    if ls == [] then 0 else (if ls[0].Search? then 1 else 0) + Searches(ls[1..])
  }

  /** While an unpinned entry is listed, every search succeeds and passes over no unpinned entry. */
  lemma {:induction false} NeverOvertaken(s: State, w: nat, i: nat)
    requires Reachable(s) && i < |s.queue| && s.queue[i].pin == Any
    ensures FirstFor(s, w, 0) <= i
  {
    ReachableInv(s);
    assert TaskOk(s, s.queue[i].task);
    assert MayTake(s, s.queue[i], w);
  }

  /** An unpinned entry with `i` entries ahead of it is taken by the search number `i + 1` at the
      latest, whoever searches and whatever is scheduled meanwhile. */
  lemma {:induction false} BoundedBypass(s: State, ls: seq<Label>, i: nat)
    requires Reachable(s) && IsRun(s, ls) && i < |s.queue| && s.queue[i].pin == Any
    requires Searches(ls) >= i + 1
    ensures Shutdown.TakenIn(s, ls, s.queue[i])
    decreases |ls|
  {
    if !Shutdown.Takes(s, ls[0], s.queue[i]) {
      if ls[0].Search? {
        NeverOvertaken(s, ls[0].w, i);
      }
      var j := Shutdown.StaysListed(s, ls[0], i);
      ReachableStep(s, ls[0]);
      BoundedBypass(Apply(s, ls[0]), ls[1..], j);
    }
  }

  // How many dispatches

  /** Dispatches a task still needs, those of the tasks it will spawn included. */
  function Remaining(t: Task): nat {
    match t.fiber
    case Some(EXEC) => Residue(t.script)
    case Some(TERM) => 0
    case Some(EXCEPT) => 0
    case _ => 1 + Residue(t.script)
  }

  function Total(s: State): nat { Sum(Remaining, s.tasks) }

  /** What a step brings in from outside, and whether it is a dispatch. */
  function Brought(l: Label): nat {
    if l.Submit? then 1 + Residue(l.script) else 0
  }

  function Dispatched(l: Label): nat { if l.SwapIn? then 1 else 0 }

  lemma {:induction false} TaskChange(s: State, t: nat, x: Task)
    requires t < |s.tasks|
    ensures Total(SetTask(s, t, x)) + Remaining(s.tasks[t]) == Total(s) + Remaining(x)
  {
    SumUpdate(Remaining, s.tasks, t, x);
  }

  lemma {:induction false} TaskAdded(s: State, script: Script, asCallback: bool, pin: Pin)
    ensures Total(NewTask(s, script, asCallback, pin)) == Total(s) + 1 + Residue(script)
  {
    SumAppend(Remaining, s.tasks, Task(script, if asCallback then None else Some(INIT), InList));
  }

  lemma {:induction false} SwapOutPreserves(s: State, w: nat, t: nat, rest: Script, st: FiberState)
    requires w < |s.workers| && t < |s.tasks| && s.tasks[t].fiber == Some(EXEC)
    requires Remaining(s.tasks[t].(script := rest, fiber := Some(st))) == Residue(s.tasks[t].script)
    ensures Total(SwapOut(s, w, t, rest, st)) == Total(s)
  {
    TaskChange(s, t, s.tasks[t].(script := rest, fiber := Some(st)));
  }

  lemma {:induction false} ScheduleInTask(s: State, w: nat, t: nat)
    requires w < |s.workers| && t < |s.tasks| && s.tasks[t].fiber == Some(EXEC)
    requires s.tasks[t].script.Spawn? || s.tasks[t].script.Wake?
    ensures Total(DoAct(s, w, t)) == Total(s)
  {
    var x := s.tasks[t].(script := s.tasks[t].script.rest);
    var s1 := SetTask(s, t, x);
    TaskChange(s, t, x);
    match s.tasks[t].script
    case Spawn(child, asCallback, target, rest) =>
      TaskAdded(s1, child, asCallback, Resolve(target, w));
    case Wake(u, target, rest) =>
      if IsHeld(s1, u) {
        TaskChange(s1, u, s1.tasks[u].(place := InList));
      }
  }

  lemma {:induction false} ActPreserves(s: State, w: nat, t: nat)
    requires w < |s.workers| && t < |s.tasks| && s.tasks[t].fiber == Some(EXEC)
    ensures Total(DoAct(s, w, t)) == Total(s)
  {
    match s.tasks[t].script
    case Finish => SwapOutPreserves(s, w, t, Finish, TERM);
    case Throw => SwapOutPreserves(s, w, t, Throw, EXCEPT);
    case YieldReady(rest) => SwapOutPreserves(s, w, t, rest, READY);
    case YieldHold(rest) => SwapOutPreserves(s, w, t, rest, HOLD);
    case _ => ScheduleInTask(s, w, t);
  }

  lemma {:induction false} SearchPreserves(s: State, w: nat)
    requires Enabled(s, Search(w))
    ensures Total(Apply(s, Search(w))) == Total(s)
  {
    var k := FirstFor(s, w, 0);
    if k < |s.queue| {
      var t := s.queue[k].task;
      TaskChange(s, t, s.tasks[t].(place := InHand(w)));
    }
  }

  lemma {:induction false} SettlePreserves(s: State, w: nat, t: nat)
    requires w < |s.workers| && t < |s.tasks| && PhaseMatches(Uncounted(t), s.tasks[t].fiber)
    ensures Total(DoSettle(s, w, t)) == Total(s)
  {
    TaskChange(s, t, DoSettle(s, w, t).tasks[t]);
  }

  lemma {:induction false} SwapInUsesOne(s: State, w: nat, t: nat)
    requires w < |s.workers| && t < |s.tasks| && Queueable(s.tasks[t].fiber)
    ensures 1 + Total(DoSwapIn(s, w, t)) == Total(s)
  {
    TaskChange(s, t, s.tasks[t].(fiber := Some(EXEC)));
  }

  lemma {:induction false} HandStepConserves(s: State, l: Label)
    requires Inv(s) && Enabled(s, l) && (l.SwapIn? || l.Act? || l.Settle?)
    ensures Dispatched(l) + Total(Apply(s, l)) == Total(s)
  {
    var t := s.workers[l.w].phase.task;
    assert HandOk(s, l.w);
    assert TaskOk(s, t);
    match l
    case SwapIn(w) => SwapInUsesOne(s, w, t);
    case Act(w) => ActPreserves(s, w, t);
    case Settle(w) => SettlePreserves(s, w, t);
  }

  lemma {:induction false} StepConserves(s: State, l: Label)
    requires Inv(s) && Enabled(s, l)
    ensures Dispatched(l) + Total(Apply(s, l)) == Total(s) + Brought(l)
  {
    match l
    case Submit(script, asCallback, pin) => TaskAdded(s, script, asCallback, pin);
    case SubmitHeld(t, pin) => TaskChange(s, t, s.tasks[t].(place := InList));
    case Search(w) => SearchPreserves(s, w);
    case SwapIn(_) => HandStepConserves(s, l);
    case Act(_) => HandStepConserves(s, l);
    case Settle(_) => HandStepConserves(s, l);
    case _ =>
  }

  function CountDispatches(ls: seq<Label>): nat {
    if ls == [] then 0 else Dispatched(ls[0]) + CountDispatches(ls[1..])
  }

  function CountBrought(ls: seq<Label>): nat {
    if ls == [] then 0 else Brought(ls[0]) + CountBrought(ls[1..])
  }

  /** Over any interleaving, dispatches made plus segments still to run equal the segments there were
      plus those submitted from outside: each dispatch uses up exactly one, no other step makes any. */
  lemma {:induction false} SegmentsConserved(s: State, ls: seq<Label>)
    requires Reachable(s) && IsRun(s, ls)
    ensures CountDispatches(ls) + Total(Final(s, ls)) == Total(s) + CountBrought(ls)
    decreases |ls|
  {
    if ls != [] {
      ReachableInv(s);
      StepConserves(s, ls[0]);
      ReachableStep(s, ls[0]);
      SegmentsConserved(Apply(s, ls[0]), ls[1..]);
    }
  }
}
