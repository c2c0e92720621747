/** `Scheduler(1, true)`: the calling thread is the only worker and `stop()` runs everything.
    The class keeps the source's fields; its methods are proved against `RoundRobin`. */
module SingleWorker {
  import opened Scripts
  import RR = RoundRobin
  import RRO = RoundRobinOrder

  /** `Fiber`: `code` stands for the saved context and what it will still do. */
  class Fiber {
    var state: FiberState
    var code: Script
    ghost var task: nat

    constructor (code: Script, ghost task: nat)
      ensures this.state == INIT && this.code == code && this.task == task
    {
      this.state, this.code, this.task := INIT, code, task;
    }

    /** `Fiber::reset`; the precondition is its assertion. */
    method Reset(code: Script, ghost task: nat)
      requires state == TERM || state == INIT || state == EXCEPT
      modifies this
      ensures this.state == INIT && this.code == code && this.task == task
    {
      this.state, this.code, this.task := INIT, code, task;
    }
  }

  /** `task` numbers the accepted tasks. */
  datatype FiberAndThread = FiberAndThread(task: nat, fiber: Fiber?, callback: Option<Script>, thread: int)

  /** The entry may run on this thread. */
  predicate IsHere(e: FiberAndThread, thread: nat) { e.thread == -1 || e.thread == thread }

  /** The tasks listed for this thread, in order. */
  function Waiting(fs: seq<FiberAndThread>, thread: nat): seq<nat> {
    if fs == [] then []
    else
      var e := fs[|fs| - 1];
      Waiting(fs[..|fs| - 1], thread) + if IsHere(e, thread) then [e.task] else []
  }

  lemma {:induction false} WaitingMore(fs: seq<FiberAndThread>, e: FiberAndThread, thread: nat)
    ensures Waiting(fs + [e], thread) == Waiting(fs, thread) + if IsHere(e, thread) then [e.task] else []
  {
    assert (fs + [e])[..|fs|] == fs;
  }

  lemma {:induction false} WaitingHas(fs: seq<FiberAndThread>, i: nat, thread: nat) returns (j: nat)
    requires i < |fs| && IsHere(fs[i], thread)
    ensures j < |Waiting(fs, thread)| && Waiting(fs, thread)[j] == fs[i].task
  {
    var last := |fs| - 1;
    if i == last {
      j := |Waiting(fs, thread)| - 1;
    } else {
      j := WaitingHas(fs[..last], i, thread);
    }
  }

  lemma {:induction false} NoneWaiting(fs: seq<FiberAndThread>, thread: nat)
    requires forall i :: 0 <= i < |fs| ==> !IsHere(fs[i], thread)
    ensures Waiting(fs, thread) == []
  {
    if fs != [] {
      NoneWaiting(fs[..|fs| - 1], thread);
    }
  }

  /** Taking out the first entry for this thread takes off the head. */
  lemma {:induction false} WaitingLess(fs: seq<FiberAndThread>, k: nat, thread: nat)
    requires k < |fs| && IsHere(fs[k], thread) && forall i :: 0 <= i < k ==> !IsHere(fs[i], thread)
    ensures Waiting(fs, thread) == [fs[k].task] + Waiting(fs[..k] + fs[k + 1..], thread)
    decreases |fs|
  {
    var init, e := fs[..|fs| - 1], fs[|fs| - 1];
    if k == |fs| - 1 {
      NoneWaiting(init, thread);
      assert fs[..k] + fs[k + 1..] == init;
    } else {
      WaitingLess(init, k, thread);
      assert fs[..k] + fs[k + 1..] == (init[..k] + init[k + 1..]) + [e];
      WaitingMore(init[..k] + init[k + 1..], e, thread);
    }
  }

  /** How a fiber that stops at `script` shows itself to the scheduler. */
  ghost predicate StopsAs(f: Fiber, script: Script)
    reads f
  {
    match script
    case YieldReady(rest) => f.state == READY && f.code == rest
    case YieldHold(rest) => f.state == HOLD && f.code == rest
    case Finish => f.state == TERM
    case Throw => f.state == EXCEPT
    case _ => false
  }

  class Scheduler {
    const thread: nat
    var fibers: seq<FiberAndThread>
    var owners: map<nat, Fiber>
    var accepted: nat
    var active: int
    var idle: int
    var autoStop: bool
    var stopping: bool
    var rootState: FiberState
    ghost var tasks: seq<RR.Task>
    ghost var waiting: seq<nat>   // the tasks listed for this thread, in order
    ghost var trace: seq<RR.Dispatch>
    ghost var Repr: set<Fiber>

    ghost function Model(): RR.Machine
      reads this`tasks, this`waiting
    {
      RR.Machine(tasks, waiting, thread)
    }

    /** The fiber `f` carries task `t` and is in state `st`, ready to be swapped in. */
    ghost predicate Carries(f: Fiber, t: nat)
      reads this`Repr, this`tasks, f
    {
      f in Repr && f.task == t && t < |tasks| && f.code == tasks[t].script
    }

    ghost predicate EntryOk(e: FiberAndThread)
      reads this`Repr, this`tasks, Repr
    {
      && e.task < |tasks|
      && tasks[e.task].status == RR.Listed(IsHere(e, thread))
      && (if e.fiber != null
          then e.fiber in Repr && Carries(e.fiber, e.task) && e.callback == None
               && (e.fiber.state == INIT || e.fiber.state == HOLD || e.fiber.state == READY)
          else e.callback == Some(tasks[e.task].script))
    }

    ghost predicate Valid()
      reads this`fibers, this`owners, this`accepted, this`tasks, this`waiting, this`Repr, Repr
    {
      && accepted == |tasks|
      && waiting == Waiting(fibers, thread)
      && RR.Ready(Model())
      && (forall i :: 0 <= i < |fibers| ==> EntryOk(fibers[i]))
      && (forall t :: t in owners <==> RR.IsHeld(Model(), t))
      && (forall t :: t in owners ==> owners[t] in Repr && Carries(owners[t], t) && owners[t].state == HOLD)
    }

    constructor (thread: nat)
      ensures Valid() && fresh(Repr) && Model() == RR.Machine([], [], thread) && trace == []
      ensures this.thread == thread && !autoStop && stopping && active == 0 && idle == 0 && rootState == INIT
    {
      this.thread := thread;
      fibers, owners, accepted, active, idle := [], map[], 0, 0, 0;
      autoStop, stopping, rootState := false, true, INIT;
      tasks, waiting, trace, Repr := [], [], [], {};
    }

    predicate Stopping()
      reads this
    {
      autoStop && stopping && fibers == [] && active == 0
    }

    /** `scheduleNoLock`. */
    method ScheduleNoLock(e: FiberAndThread) returns (needTickle: bool)
      modifies this`fibers
      ensures needTickle == (old(fibers) == [])
      ensures fibers == if e.fiber != null || e.callback.Some? then old(fibers) + [e] else old(fibers)
    {
      needTickle := fibers == [];
      if e.fiber != null || e.callback.Some? {
        fibers := fibers + [e];
      }
    }

    /** Schedule the entry `e`, whose task is marked as listed but is not. */
    method Enlist(e: FiberAndThread)
      requires Valid() && EntryOk(e)
      requires forall j :: 0 <= j < |waiting| ==> waiting[j] != e.task
      modifies this`fibers, this`waiting
      ensures Valid() && fibers == old(fibers) + [e]
      ensures Model() == old(Model()).(queue := old(waiting) + if IsHere(e, thread) then [e.task] else [])
    {
      ghost var listed := fibers + [e];
      assert forall i :: 0 <= i < |listed| ==> EntryOk(listed[i]);
      WaitingMore(fibers, e, thread);
      var _ := ScheduleNoLock(e);
      assert fibers == listed;
      waiting := waiting + if IsHere(e, thread) then [e.task] else [];
      assert RR.Ready(Model());
    }

    /** What carries the next task: the code alone, or a fiber of its own. */
    method NewEntry(script: Script, asCallback: bool, pin: int) returns (e: FiberAndThread)
      modifies this`Repr
      ensures fresh(Repr - old(Repr)) && old(Repr) <= Repr
      ensures e.task == accepted && e.thread == pin
      ensures asCallback ==> e.fiber == null && e.callback == Some(script)
      ensures !asCallback ==> e.fiber != null && e.fiber in Repr && fresh(e.fiber) && e.callback == None
      ensures !asCallback ==> e.fiber.state == INIT && e.fiber.task == accepted && e.fiber.code == script
    {
      e := FiberAndThread(accepted, null, Some(script), pin);
      if !asCallback {
        var f := new Fiber(script, accepted);
        Repr := Repr + {f};
        e := FiberAndThread(accepted, f, None, pin);
      }
    }

    /** Build and schedule a new task, as a callback or as a fiber of its own, for any thread. */
    method Submit(script: Script, asCallback: bool, pin: int)
      requires Valid()
      modifies this`fibers, this`accepted, this`tasks, this`waiting, this`Repr
      ensures Valid() && fresh(Repr - old(Repr)) && old(Repr) <= Repr
      ensures Model() == RR.Accept(old(Model()), script, pin == -1 || pin == thread)
      ensures fibers != [] && fibers[..|fibers| - 1] == old(fibers)
      ensures var e := fibers[|fibers| - 1];
        e.task == old(accepted) && e.thread == pin && (asCallback <==> e.fiber == null)
    {
      var e := NewEntry(script, asCallback, pin);
      NewTask(script, IsHere(e, thread));
      Enlist(e);
    }

    /** Number the next task. */
    method NewTask(script: Script, here: bool)
      requires Valid()
      modifies this`accepted, this`tasks
      ensures Valid() && tasks == old(tasks) + [RR.Task(script, RR.Listed(here))]
      ensures forall j :: 0 <= j < |waiting| ==> waiting[j] != old(accepted)
    {
      RR.OneTaskMore(Model(), RR.Task(script, RR.Listed(here)));
      ghost var before := Model();
      tasks := tasks + [RR.Task(script, RR.Listed(here))];
      accepted := accepted + 1;
      assert RR.Ready(Model());
      assert forall t: nat :: RR.IsHeld(Model(), t) == RR.IsHeld(before, t);
      assert forall i :: 0 <= i < |fibers| ==> EntryOk(fibers[i]);
    }

    /** The owner of the held task `t`, if there is one, schedules its fiber again, for any thread. */
    method Wake(t: nat, pin: int)
      requires Valid()
      modifies this`fibers, this`owners, this`tasks, this`waiting
      ensures Valid()
      ensures Model() == if RR.IsHeld(old(Model()), t) then RR.Resume(old(Model()), t, pin == -1 || pin == thread)
                         else old(Model())
      ensures fibers == if t in old(owners) then old(fibers) + [FiberAndThread(t, old(owners)[t], None, pin)]
                        else old(fibers)
    {
      if t in owners {
        GiveBack(t, pin);
      }
    }

    method GiveBack(t: nat, pin: int)
      requires Valid() && t in owners
      modifies this`fibers, this`owners, this`tasks, this`waiting
      ensures Valid() && Model() == RR.Resume(old(Model()), t, pin == -1 || pin == thread)
      ensures fibers == old(fibers) + [FiberAndThread(t, old(owners)[t], None, pin)]
    {
      var e := FiberAndThread(t, owners[t], None, pin);
      assert forall j :: 0 <= j < |waiting| ==> Model().queue[j] != t;
      owners := owners - {t};
      tasks := tasks[t := tasks[t].(status := RR.Listed(IsHere(e, thread)))];
      assert forall i :: 0 <= i < |fibers| ==> EntryOk(fibers[i]);
      Enlist(e);
    }

    function Thread(target: Target): int {
      match target
      case AnyThread => -1
      case OwnThread => thread
      case OnThread(w) => w
    }

    /** The fiber of the active task is neither listed nor with an owner. */
    lemma {:induction false} NotListed(f: Fiber)
      requires Valid() && f.task < |tasks| && tasks[f.task].status == RR.Active
      ensures forall i :: 0 <= i < |fibers| ==> fibers[i].fiber != f
      ensures forall t :: t in owners ==> owners[t] != f
    {
      forall i | 0 <= i < |fibers| ensures fibers[i].fiber != f {
        assert EntryOk(fibers[i]);
      }
    }

    /** The running fiber `f` of task `t` moves on past a call of `schedule`. */
    method StepOver(f: Fiber, ghost t: nat)
      requires Valid() && t < |tasks| && tasks[t].status == RR.Active && !RR.Stops(tasks[t].script)
      requires f.task == t && f.code == tasks[t].script
      modifies this`tasks, this`waiting, f`code
      ensures Valid() && Model() == RR.Advance(old(Model()), t)
      ensures f.code == old(f.code).rest
    {
      NotListed(f);
      tasks := tasks[t := tasks[t].(script := f.code.rest)];
      f.code := f.code.rest;
      forall i | 0 <= i < |fibers| ensures EntryOk(fibers[i]) {
        assert old(EntryOk(fibers[i]));
      }
    }

    /** The running fiber `f` of task `t` schedules something. */
    method Act(f: Fiber, ghost t: nat)
      requires Valid() && t < |tasks| && tasks[t].status == RR.Active && !RR.Stops(tasks[t].script)
      requires f.task == t && f.code == tasks[t].script
      modifies this`fibers, this`owners, this`accepted, this`tasks, this`waiting, this`Repr, f`code
      ensures Valid() && fresh(Repr - old(Repr)) && old(Repr) <= Repr
      ensures Model() == RR.ActOnce(old(Model()), t)
      ensures t < |tasks| && tasks[t].status == RR.Active && f.code == tasks[t].script
      ensures f.code == old(f.code).rest
    {
      var code := f.code;
      StepOver(f, t);
      match code
      case Spawn(child, asCallback, target, rest) => Submit(child, asCallback, Thread(target));
      case Wake(u, target, rest) => Wake(u, Thread(target));
    }

    /** `swapIn`, up to the point where the fiber swaps back. */
    method SwapIn(f: Fiber, ghost t: nat)
      requires Valid() && t < |tasks| && tasks[t].status == RR.Active
      requires f.task == t && f.code == tasks[t].script
      requires f.state != EXEC
      modifies this`fibers, this`owners, this`accepted, this`tasks, this`waiting, this`Repr, this`trace, f
      ensures Valid() && fresh(Repr - old(Repr)) && old(Repr) <= Repr
      ensures Model() == RR.Segment(old(Model()), t)
      ensures f.task == t && StopsAs(f, tasks[t].script) && tasks[t].status == RR.Active
      ensures tasks[t].script.YieldReady? ==> f.state == READY && f.code == tasks[t].script.rest
      ensures tasks[t].script.YieldHold? ==> f.state == HOLD && f.code == tasks[t].script.rest
      ensures tasks[t].script == Finish ==> f.state == TERM
      ensures tasks[t].script == Throw ==> f.state == EXCEPT
      ensures trace == old(trace) + [RR.Dispatch(t, old(f.code))]
    {
      NotListed(f);
      f.state := EXEC;
      trace := trace + [RR.Dispatch(t, f.code)];
      assert Valid() && Model() == old(Model());
      RunOn(f, t);
      NotListed(f);
      ghost var stopped := Model();
      SwapBack(f);
      assert Valid() && Model() == stopped;
    }

    /** The fiber runs up to the point where it stops. */
    method RunOn(f: Fiber, ghost t: nat)
      requires Valid() && t < |tasks| && tasks[t].status == RR.Active
      requires f.task == t && f.code == tasks[t].script && f.state == EXEC
      modifies this`fibers, this`owners, this`accepted, this`tasks, this`waiting, this`Repr, f`code
      ensures Valid() && fresh(Repr - old(Repr)) && old(Repr) <= Repr
      ensures t < |tasks| && tasks[t].status == RR.Active && f.code == tasks[t].script && RR.Stops(f.code)
      ensures Model() == RR.Segment(old(Model()), t)
    {
      while f.code.Spawn? || f.code.Wake?
        invariant Valid() && fresh(Repr - old(Repr)) && old(Repr) <= Repr
        invariant t < |tasks| && tasks[t].status == RR.Active
        invariant f.task == t && f.code == tasks[t].script && f.state == EXEC
        invariant RR.Segment(Model(), t) == RR.Segment(old(Model()), t)
        decreases f.code
      {
        Act(f, t);
      }
    }

    /** `YieldToReady`, `YieldToHold` or the end of `MainFunc`. */
    static method SwapBack(f: Fiber)
      requires RR.Stops(f.code)
      modifies f
      ensures StopsAs(f, old(f.code)) && f.task == old(f.task)
    {
      match f.code
      case YieldReady(rest) => f.state, f.code := READY, rest;
      case YieldHold(rest) => f.state, f.code := HOLD, rest;
      case Finish => f.state := TERM;
      case Throw => f.state := EXCEPT;
    }

    /** The search loop: the first entry this thread may run. */
    method Search() returns (it: nat)
      requires forall i :: 0 <= i < |fibers| ==> fibers[i].fiber != null || fibers[i].callback.Some?
      ensures it <= |fibers|
      ensures it < |fibers| ==>
        && (fibers[it].thread == -1 || fibers[it].thread == thread)
        && (fibers[it].fiber != null ==> fibers[it].fiber.state != EXEC)
      ensures forall i :: 0 <= i < it ==>
        || (fibers[i].thread != -1 && fibers[i].thread != thread)
        || (fibers[i].fiber != null && fibers[i].fiber.state == EXEC)
    {
      it := 0;
      while it < |fibers|
        invariant it <= |fibers|
        invariant forall i :: 0 <= i < it ==> !MayRun(fibers[i])
      {
        if fibers[it].thread != -1 && fibers[it].thread != thread {
          it := it + 1;
          continue;
        }
        assert fibers[it].fiber != null || fibers[it].callback.Some?;
        if fibers[it].fiber != null && fibers[it].fiber.state == EXEC {
          it := it + 1;
          continue;
        }
        break;
      }
    }

    predicate MayRun(e: FiberAndThread)
      reads e.fiber
    {
      IsHere(e, thread) && (e.fiber != null ==> e.fiber.state != EXEC)
    }

    /** The locked block of `run`: the first entry for this thread is taken. */
    method Pick() returns (e: FiberAndThread, isActive: bool)
      requires Valid()
      modifies this`fibers, this`tasks, this`waiting, this`active
      ensures Valid()
      ensures isActive == (old(Model()).queue != [])
      ensures !isActive ==> fibers == old(fibers) && Model() == old(Model()) && active == old(active)
      ensures !isActive ==> e.fiber == null && e.callback == None
      ensures isActive ==> Model() == RR.Pick(old(Model())) && active == old(active) + 1
      ensures isActive ==> e in old(fibers) && e.task == old(Model()).queue[0]
      ensures isActive ==> InHandOk(e)
    {
      e, isActive := FiberAndThread(0, null, None, -1), false;
      forall i | 0 <= i < |fibers|
        ensures fibers[i].fiber != null || fibers[i].callback.Some?
        ensures IsHere(fibers[i], thread) ==> MayRun(fibers[i])
      {
        assert EntryOk(fibers[i]);
      }
      var it := Search();
      if it < |fibers| {
        e := TakeAt(it);
        active := active + 1;
        isActive := true;
      } else {
        NoneWaiting(fibers, thread);
      }
    }

    /** The entry just taken: its task is active, and what carries it is ready. */
    ghost predicate InHandOk(e: FiberAndThread)
      reads this`Repr, this`tasks, Repr
    {
      && e.task < |tasks| && tasks[e.task].status == RR.Active
      && (if e.fiber != null
          then e.fiber in Repr && Carries(e.fiber, e.task) && e.callback == None
               && (e.fiber.state == INIT || e.fiber.state == HOLD || e.fiber.state == READY)
          else e.callback == Some(tasks[e.task].script))
    }

    method TakeAt(it: nat) returns (e: FiberAndThread)
      requires Valid() && it < |fibers| && IsHere(fibers[it], thread)
      requires forall i :: 0 <= i < it ==> !IsHere(fibers[i], thread)
      modifies this`fibers, this`tasks, this`waiting
      ensures Valid() && e == old(fibers[it]) && old(Model()).queue != [] && e.task == old(Model()).queue[0]
      ensures Model() == RR.Pick(old(Model())) && InHandOk(e)
    {
      ghost var before, were := Model(), fibers;
      WaitingLess(fibers, it, thread);
      e := fibers[it];
      assert EntryOk(e);
      fibers := fibers[..it] + fibers[it + 1..];
      waiting := Waiting(fibers, thread);
      assert before.queue == [e.task] + waiting;
      RR.PickKeeps(before);
      forall i | 0 <= i < |fibers| ensures EntryOk(fibers[i]) && fibers[i].task != e.task {
        assert fibers[i] == were[if i < it then i else i + 1];
        assert EntryOk(fibers[i]);
        if IsHere(fibers[i], thread) {
          var j := WaitingHas(fibers, i, thread);
          assert before.queue[j + 1] == fibers[i].task;
        }
      }
      tasks := tasks[e.task := tasks[e.task].(status := RR.Active)];
      forall i | 0 <= i < |fibers| ensures EntryOk(fibers[i]) {}
    }

    /** The fiber yielded READY: back of the list, without a pin. */
    method Requeue(f: Fiber, t: nat)
      requires Valid() && t < |tasks| && tasks[t] == RR.Task(YieldReady(f.code), RR.Active)
      requires f.task == t && f.state == READY
      modifies this`fibers, this`tasks, this`waiting, this`Repr
      ensures Valid() && Model() == RR.Settle(old(Model()), t) && Repr == old(Repr) + {f}
    {
      assert forall j :: 0 <= j < |waiting| ==> Model().queue[j] != t;
      Repr := Repr + {f};
      tasks := tasks[t := RR.Task(f.code, RR.Queued)];
      forall i | 0 <= i < |fibers| ensures EntryOk(fibers[i]) {
        assert old(EntryOk(fibers[i]));
      }
      Enlist(FiberAndThread(t, f, None, -1));
    }

    /** The fiber yielded HOLD: only its owner refers to it now. */
    method Hold(f: Fiber, t: nat)
      requires Valid() && t < |tasks| && tasks[t] == RR.Task(YieldHold(f.code), RR.Active)
      requires f.task == t && f.state == HOLD
      modifies this`owners, this`tasks, this`waiting, this`Repr, f`state
      ensures Valid() && Model() == RR.Settle(old(Model()), t) && Repr == old(Repr) + {f}
    {
      NotListed(f);
      Repr := Repr + {f};
      f.state := HOLD;
      owners := owners[t := f];
      tasks := tasks[t := RR.Task(f.code, RR.Held)];
      forall i | 0 <= i < |fibers| ensures EntryOk(fibers[i]) {
        assert old(EntryOk(fibers[i]));
      }
    }

    /** The fiber has ended. */
    ghost method Retire(t: nat)
      requires Valid() && t < |tasks| && tasks[t].status == RR.Active
      requires tasks[t].script == Finish || tasks[t].script == Throw
      modifies this`tasks, this`waiting
      ensures Valid() && Model() == RR.Settle(old(Model()), t)
    {
      tasks := tasks[t := tasks[t].(status := RR.Done)];
      forall i | 0 <= i < |fibers| ensures EntryOk(fibers[i]) {
        assert old(EntryOk(fibers[i]));
      }
    }

    /** `run`, first branch: the entry in hand is a fiber. */
    method RunFiber(e: FiberAndThread)
      requires Valid() && InHandOk(e) && e.fiber != null
      modifies this`fibers, this`owners, this`accepted, this`tasks, this`waiting, this`Repr
      modifies this`trace, this`active, Repr
      ensures Valid() && fresh(Repr - old(Repr)) && old(Repr) <= Repr
      ensures Model() == RR.Settle(RR.Segment(old(Model()), e.task), e.task)
      ensures trace == old(trace) + [RR.Dispatch(e.task, old(tasks[e.task].script))]
      ensures active == old(active) - 1
    {
      SwapIn(e.fiber, e.task);
      active := active - 1;
      PutBack(e.fiber, e.task);
    }

    method PutBack(f: Fiber, t: nat)
      requires Valid() && t < |tasks| && tasks[t].status == RR.Active && StopsAs(f, tasks[t].script)
      requires f.task == t && f in Repr
      modifies this`fibers, this`owners, this`tasks, this`waiting, this`Repr, f`state
      ensures Valid() && Model() == RR.Settle(old(Model()), t) && Repr == old(Repr)
    {
      if f.state == READY {
        Requeue(f, t);
      } else if f.state != TERM && f.state != EXCEPT {
        Hold(f, t);
      } else {
        Retire(t);
      }
    }

    /** `run`, second branch: a callback runs on the worker's spare fiber, built or reset for it. The
        spare becomes the task's own fiber if the task yields; otherwise it is kept for the next one. */
    method RunCallback(e: FiberAndThread, spare: Fiber?) returns (spare': Fiber?)
      requires Valid() && InHandOk(e) && e.fiber == null
      requires spare != null ==> spare !in Repr && spare.state == INIT
      modifies this`fibers, this`owners, this`accepted, this`tasks, this`waiting, this`Repr
      modifies this`trace, this`active, spare
      ensures Valid() && old(Repr) <= Repr
      ensures fresh(Repr - old(Repr) - {spare})
      ensures spare' != null ==> spare' !in Repr && spare'.state == INIT && (spare' == spare || fresh(spare'))
      ensures Model() == RR.Settle(RR.Segment(old(Model()), e.task), e.task)
      ensures e.task < |tasks| && (spare' != null <==> tasks[e.task].status == RR.Done)
      ensures spare != null && spare' != null ==> spare' == spare
      ensures spare != null && spare' == null ==> spare in Repr && spare.task == e.task
      ensures trace == old(trace) + [RR.Dispatch(e.task, old(tasks[e.task].script))]
      ensures active == old(active) - 1
    {
      var f := Mount(e, spare);
      assert Model() == old(Model());
      SwapIn(f, e.task);
      assert f !in Repr;
      ghost var stopped := Model();
      active := active - 1;
      assert Valid() && Model() == stopped;
      spare' := Dismount(f, e.task);
    }

    static method Mount(e: FiberAndThread, spare: Fiber?) returns (f: Fiber)
      requires e.callback.Some?
      requires spare != null ==> spare.state == INIT
      modifies spare
      ensures f.state == INIT && f.code == e.callback.value && f.task == e.task
      ensures if spare != null then f == spare else fresh(f)
    {
      if spare != null {
        f := spare;
        f.Reset(e.callback.value, e.task);
      } else {
        f := new Fiber(e.callback.value, e.task);
      }
    }

    /** What `run` does with `callback_fiber` once it is back; after `reset(nullptr)` it has no code. */
    method Dismount(f: Fiber, t: nat) returns (spare: Fiber?)
      requires Valid() && t < |tasks| && tasks[t].status == RR.Active && StopsAs(f, tasks[t].script)
      requires f.task == t && f !in Repr
      modifies this`fibers, this`owners, this`tasks, this`waiting, this`Repr, f
      ensures Valid() && Model() == RR.Settle(old(Model()), t)
      ensures spare == null ==> Repr == old(Repr) + {f}
      ensures spare != null ==> Repr == old(Repr) && spare == f && f.state == INIT
      ensures t < |tasks| && (spare != null <==> tasks[t].status == RR.Done) && f.task == t
    {
      spare := null;
      if f.state == READY {
        Requeue(f, t);
      } else if f.state == EXCEPT || f.state == TERM {
        Retire(t);
        f.Reset(Finish, t);
        spare := f;
      } else {
        Hold(f, t);
      }
    }

    /** The idle branch of `run`: swaps the idle fiber in, which asks `stopping()` and then ends or
        yields HOLD. */
    method BeIdle(idleFiber: Fiber)
      requires idleFiber.state != EXEC
      modifies idleFiber`state, this`idle
      ensures idleFiber.state == if Stopping() then TERM else HOLD
      ensures idle == old(idle)
    {
      idle := idle + 1;
      idleFiber.state := EXEC;
      if Stopping() {
        idleFiber.state := TERM;
      } else {
        idleFiber.state := HOLD;
      }
      if idleFiber.state != TERM && idleFiber.state != EXCEPT {
        idleFiber.state := HOLD;
      }
      idle := idle - 1;
    }

    /** One dispatch of `run`: whatever entry is in hand, the machine takes one turn. */
    method RunOne(e: FiberAndThread, spare: Fiber?) returns (spare': Fiber?)
      requires Valid() && InHandOk(e)
      requires spare != null ==> spare !in Repr && spare.state == INIT
      modifies this`fibers, this`owners, this`accepted, this`tasks, this`waiting, this`Repr
      modifies this`trace, this`active, Repr, spare
      ensures Valid() && old(Repr) <= Repr && fresh(Repr - old(Repr) - {spare})
      ensures spare' != null ==> spare' !in Repr && spare'.state == INIT && (spare' == spare || fresh(spare'))
      ensures Model() == RR.Settle(RR.Segment(old(Model()), e.task), e.task)
      ensures trace == old(trace) + [RR.Dispatch(e.task, old(tasks[e.task].script))]
      ensures active == old(active) - 1
    {
      if e.fiber != null {
        RunFiber(e);
        spare' := spare;
      } else {
        spare' := RunCallback(e, spare);
      }
    }

    /** One iteration of `run` up to the idle part; `ran` tells whether there was something to dispatch.
        An entry that was picked always has a fiber or a callback. */
    method TakeTurn(spare: Fiber?) returns (spare': Fiber?, ran: bool)
      requires Valid()
      requires spare != null ==> spare !in Repr && spare.state == INIT
      modifies this`fibers, this`owners, this`accepted, this`tasks, this`waiting, this`Repr
      modifies this`trace, this`active, Repr, spare
      ensures Valid() && active == old(active) && old(Repr) <= Repr && fresh(Repr - old(Repr) - {spare})
      ensures spare' != null ==> spare' !in Repr && spare'.state == INIT && (spare' == spare || fresh(spare'))
      ensures ran == (old(Model()).queue != [])
      ensures ran ==> RR.Total(Model()) < RR.Total(old(Model()))
      ensures !ran ==> fibers == old(fibers) && Model() == old(Model())
      ensures RR.Course(trace, Model()) == RR.Course(old(trace), old(Model()))
    {
      ran, spare' := true, spare;
      if Model().queue != [] {
        RR.TurnKeeps(Model());
        RR.TurnStaysOnCourse(trace, Model());
      }
      var e, isActive := Pick();
      if e.fiber != null || e.callback.Some? {
        spare' := RunOne(e, spare);
      } else {
        if isActive {
          assert false;
        }
        ran := false;
      }
    }

    /** The two local fibers of `run` at the head of its loop. */
    ghost predicate LocalsOk(idleFiber: Fiber, spare: Fiber?)
      reads this`Repr, this`fibers, idleFiber, spare
    {
      && idleFiber !in Repr && idleFiber != spare
      && (idleFiber.state == INIT || idleFiber.state == HOLD || (idleFiber.state == TERM && fibers == []))
      && (spare != null ==> spare !in Repr && spare.state == INIT)
    }

    /** One iteration of `run`; `over` is its `break`. While entries for other threads are listed and none for
        this one, it changes nothing and never breaks. */
    method Iterate(idleFiber: Fiber, spare: Fiber?) returns (spare': Fiber?, over: bool)
      requires Valid() && LocalsOk(idleFiber, spare) && autoStop && stopping && active == 0
      modifies this`fibers, this`owners, this`accepted, this`tasks, this`waiting, this`Repr
      modifies this`trace, this`active, this`idle
      modifies Repr, spare, idleFiber`state
      ensures Valid() && LocalsOk(idleFiber, spare') && active == 0 && idle == old(idle)
      ensures old(Repr) <= Repr && fresh(Repr - old(Repr) - {spare})
      ensures spare' == null || spare' == spare || fresh(spare')
      ensures RR.Course(trace, Model()) == RR.Course(old(trace), old(Model()))
      ensures over ==> fibers == []
      ensures old(Model()).queue != [] ==> !over && RR.Total(Model()) < RR.Total(old(Model()))
      ensures old(Model()).queue == [] ==> fibers == old(fibers) && Model() == old(Model())
      ensures old(Model()).queue == [] && !over ==>
        old(idleFiber.state) != TERM && idleFiber.state == if fibers == [] then TERM else HOLD
    {
      assert fibers == [] ==> waiting == [];
      var ran: bool;
      spare', ran := TakeTurn(spare);
      over := IdleUnless(ran, idleFiber, spare');
    }

    /** `run`, third branch, unless something was run: leave if the idle fiber has ended, else swap it in. */
    method IdleUnless(ran: bool, idleFiber: Fiber, ghost spare: Fiber?) returns (over: bool)
      requires Valid() && autoStop && stopping && active == 0
      requires idleFiber !in Repr && idleFiber != spare && idleFiber.state != EXEC
      requires !ran ==> LocalsOk(idleFiber, spare)
      modifies idleFiber`state, this`idle
      ensures Valid() && Model() == old(Model()) && idle == old(idle)
      ensures ran ==> !over && idleFiber.state == old(idleFiber.state)
      ensures !ran ==> LocalsOk(idleFiber, spare) && over == (old(idleFiber.state) == TERM) && (over ==> fibers == [])
      ensures !ran && !over ==> idleFiber.state == if fibers == [] then TERM else HOLD
    {
      if ran {
        return false;
      }
      if idleFiber.state == TERM {
        return true;
      }
      BeIdle(idleFiber);
      over := false;
    }

    /** With nothing listed for this thread, and at the end for no other, nothing is listed. */
    lemma {:induction false} NothingListed()
      requires Valid() && waiting == [] && RR.NoneElsewhere(Model())
      ensures fibers == []
    {
      if fibers != [] {
        HereIsWaiting(0);
      }
    }

    lemma {:induction false} HereIsWaiting(i: nat)
      requires Valid() && i < |fibers|
      ensures tasks[fibers[i].task].status == RR.Elsewhere || waiting != []
    {
      assert EntryOk(fibers[i]);
      if IsHere(fibers[i], thread) {
        var j := WaitingHas(fibers, i, thread);
      }
    }

    /** `run` on the only worker, once `stop()` has set both flags and if nothing remains listed for another
        thread at the end: it returns, with the list empty, having dispatched what the round-robin
        interpreter dispatches, in the same order. */
    method Run()
      requires Valid() && autoStop && stopping && active == 0 && idle == 0
      requires RR.EndsHere(Model())
      modifies this`fibers, this`owners, this`accepted, this`tasks, this`waiting, this`Repr
      modifies this`trace, this`active, this`idle, Repr
      ensures Valid() && fibers == [] && active == 0 && idle == 0
      ensures RR.Course(old(trace), old(Model())) == (trace, Model())
      ensures RRO.InTurn(old(trace), old(Model()), trace)
      ensures old(Repr) <= Repr && fresh(Repr - old(Repr))
    {
      var idleFiber := new Fiber(Finish, 0);
      var spare: Fiber? := null;
      var over := false;
      while !over
        invariant Valid() && LocalsOk(idleFiber, spare) && old(Repr) <= Repr && fresh(Repr - old(Repr))
        invariant active == 0 && idle == 0 && fresh(idleFiber) && (spare != null ==> fresh(spare))
        invariant RR.Course(trace, Model()) == RR.Course(old(trace), old(Model())) && RR.EndsHere(Model())
        invariant over ==> fibers == []
        decreases !over, RR.Total(Model()), idleFiber.state != TERM
      {
        if waiting == [] {
          RR.HasEnded(Model());
          NothingListed();
        }
        ghost var before, sofar := Model(), trace;
        spare, over := Iterate(idleFiber, spare);
        RR.SameEnd(sofar, before, trace, Model());
      }
      RR.CourseEnds(trace, Model());
      RRO.CourseInTurn(old(trace), old(Model()), trace, Model());
    }

    /** `stop()` from the calling thread: sets the flags and, unless nothing is left, enters `run` through the
        root fiber, which is TERM afterwards. `ok` is false where it resumes a root fiber that has ended,
        which runs into the assertion behind its end. */
    method Stop() returns (ok: bool)
      requires Valid() && active == 0 && idle == 0 && (rootState == INIT || rootState == TERM)
      requires rootState == INIT ==> RR.EndsHere(Model())
      modifies this, Repr
      ensures ok == (old(rootState) == INIT || old(fibers) == [])
      ensures Valid() && autoStop && stopping
      ensures ok ==> Stopping() && RR.Course(old(trace), old(Model())) == (trace, Model())
      ensures ok ==> RRO.InTurn(old(trace), old(Model()), trace)
      ensures ok ==> rootState == if old(fibers) == [] then old(rootState) else TERM
      ensures !ok ==> fibers == old(fibers) && Model() == old(Model()) && trace == old(trace)
    {
      autoStop := true;
      stopping := true;
      assert Valid() && Model() == old(Model());
      if Stopping() {
        RR.CourseEnds(trace, Model());
        return true;
      }
      if rootState == TERM {
        rootState := EXEC;
        assert Valid() && Model() == old(Model());
        return false;
      }
      CallRoot();
      ok := true;
    }

    /** `m_rootFiber->call()`: runs `run` as the root fiber's code and comes back when it has ended. */
    method CallRoot()
      requires Valid() && autoStop && stopping && active == 0 && idle == 0 && rootState == INIT
      requires RR.EndsHere(Model())
      modifies this`fibers, this`owners, this`accepted, this`tasks, this`waiting, this`Repr
      modifies this`trace, this`active, this`idle
      modifies this`rootState, Repr
      ensures Valid() && fibers == [] && active == 0
      ensures RR.Course(old(trace), old(Model())) == (trace, Model())
      ensures RRO.InTurn(old(trace), old(Model()), trace)
      ensures rootState == TERM
    {
      rootState := EXEC;
      assert Valid() && Model() == old(Model());
      Run();
      ghost var end := Model();
      rootState := TERM;
      assert Valid() && Model() == end;
    }
  }
}
