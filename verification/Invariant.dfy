/** What every step of the worker protocol keeps. */
module Invariant {
  import opened Scripts
  import opened Seqs
  import opened Protocol

  /** A fiber state a queued entry can be in; None is a bare callback. */
  predicate Queueable(f: Option<FiberState>) {
    f == None || f == Some(INIT) || f == Some(HOLD) || f == Some(READY)
  }

  predicate Ended(f: Option<FiberState>) { f == Some(TERM) || f == Some(EXCEPT) }

  predicate Holds(k: Worker, t: nat) { HasTask(k.phase) && k.phase.task == t }

  predicate PhaseMatches(p: Phase, f: Option<FiberState>) {
    match p
    case Picked(_) => Queueable(f)
    case Running(_) => f == Some(EXEC)
    case Returned(_) => f == Some(READY) || f == Some(HOLD) || Ended(f)
    case Uncounted(_) => f == Some(READY) || f == Some(HOLD) || Ended(f)
    case _ => true
  }

  ghost predicate InQueue(s: State, t: nat) {
    exists i :: 0 <= i < |s.queue| && s.queue[i].task == t
  }

  ghost predicate QueueOk(s: State) {
    && (forall i :: 0 <= i < |s.queue| ==>
          && s.queue[i].task < |s.tasks|
          && s.tasks[s.queue[i].task].place == InList)
    && (forall i, j :: 0 <= i < j < |s.queue| ==> s.queue[i].task != s.queue[j].task)
  }

  ghost predicate HandOk(s: State, w: nat)
    requires w < |s.workers|
  {
    var p := s.workers[w].phase;
    HasTask(p) ==> p.task < |s.tasks| && s.tasks[p.task].place == InHand(w)
  }

  ghost predicate TaskOk(s: State, t: nat)
    requires t < |s.tasks|
  {
    var f := s.tasks[t].fiber;
    match s.tasks[t].place
    case InList => InQueue(s, t) && Queueable(f)
    case InHand(w) => w < |s.workers| && Holds(s.workers[w], t) && PhaseMatches(s.workers[w].phase, f)
    case Held => f == Some(HOLD)
    case Done => Ended(f)
    case Recycled => Ended(f)
  }

  predicate InSwap(p: Phase) { p.Running? || p.Returned? || p.Uncounted? }

  /** The two local fibers of `run`. */
  predicate LocalsOk(k: Worker) {
    && (k.spare == NoSpare || k.spare == Parked(INIT) || (k.spare == Carrying && InSwap(k.phase)))
    && (k.phase == InIdle <==> k.idleFiber == EXEC)
    && k.idleFiber != READY && k.idleFiber != EXCEPT
    && (k.phase == IdleBack ==> k.idleFiber != INIT)
  }

  predicate FlagsOk(s: State, w: nat)
    requires w < |s.workers|
  {
    var k := s.workers[w];
    && (k.idleFiber == TERM ==> s.autoStop && s.stopping)
    && (k.phase == Exited ==> s.autoStop && s.stopping && (k.idleFiber == TERM || (s.caller && w == 0)))
  }

  function ActiveOne(k: Worker): nat { if k.phase.Picked? || k.phase.Running? || k.phase.Returned? then 1 else 0 }

  function IdleOne(k: Worker): nat { if k.phase.InIdle? || k.phase.IdleBack? then 1 else 0 }

  ghost predicate CountersOk(s: State) {
    s.active == Sum(ActiveOne, s.workers) && s.idle == Sum(IdleOne, s.workers)
  }

  ghost predicate WorkersOk(s: State) {
    forall w :: 0 <= w < |s.workers| ==> HandOk(s, w) && LocalsOk(s.workers[w]) && FlagsOk(s, w)
  }

  ghost predicate TasksOk(s: State) {
    forall t :: 0 <= t < |s.tasks| ==> TaskOk(s, t)
  }

  ghost predicate Inv(s: State) {
    |s.workers| > 0 && QueueOk(s) && WorkersOk(s) && TasksOk(s) && CountersOk(s)
  }

  lemma {:induction false} InitKeepsInv(n: nat, caller: bool)
    requires n > 0
    ensures Inv(Init(n, caller))
  {
    var s := Init(n, caller);
    SumZero(ActiveOne, s.workers);
    SumZero(IdleOne, s.workers);
  }

  // One worker moves, and with it at most the task `t`

  ghost predicate Moves(s: State, s': State, w: nat, t: nat) {
    && w < |s.workers| == |s'.workers|
    && s'.workers == s.workers[w := s'.workers[w]]
    && s'.autoStop == s.autoStop && s'.stopping == s.stopping && s'.caller == s.caller
    && |s'.tasks| == |s.tasks|
    && (forall u :: 0 <= u < |s.tasks| && u != t ==> s'.tasks[u] == s.tasks[u])
    && (HasTask(s.workers[w].phase) ==> s.workers[w].phase.task == t)
    && (t < |s.tasks| && s.tasks[t].place.InHand? ==> s.tasks[t].place.worker == w)
  }

  lemma {:induction false} WorkersFollow(s: State, s': State, w: nat, t: nat)
    requires WorkersOk(s) && Moves(s, s', w, t)
    requires HandOk(s', w) && LocalsOk(s'.workers[w]) && FlagsOk(s', w)
    ensures WorkersOk(s')
  {
    forall v | 0 <= v < |s'.workers|
      ensures HandOk(s', v) && LocalsOk(s'.workers[v]) && FlagsOk(s', v)
    {
      if v != w {
        assert HandOk(s, v) && LocalsOk(s.workers[v]) && FlagsOk(s, v);
      }
    }
  }

  lemma {:induction false} CountersFollow(s: State, s': State, w: nat, t: nat)
    requires CountersOk(s) && Moves(s, s', w, t)
    requires s'.active == s.active - ActiveOne(s.workers[w]) + ActiveOne(s'.workers[w])
    requires s'.idle == s.idle - IdleOne(s.workers[w]) + IdleOne(s'.workers[w])
    ensures CountersOk(s')
  {
    SumUpdate(ActiveOne, s.workers, w, s'.workers[w]);
    SumUpdate(IdleOne, s.workers, w, s'.workers[w]);
  }

  lemma {:induction false} TasksFollow(s: State, s': State, w: nat, t: nat)
    requires TasksOk(s) && Moves(s, s', w, t)
    requires t < |s.tasks| ==> TaskOk(s', t)
    requires forall u :: 0 <= u < |s.tasks| && u != t && InQueue(s, u) ==> InQueue(s', u)
    ensures TasksOk(s')
  {
    forall u | 0 <= u < |s'.tasks| ensures TaskOk(s', u) {
      assert TaskOk(s, u);
    }
  }

  /** The whole invariant, for a step that leaves the list alone. */
  lemma {:induction false} QuietMove(s: State, s': State, w: nat, t: nat)
    requires Inv(s) && Moves(s, s', w, t) && s'.queue == s.queue
    requires HandOk(s', w) && LocalsOk(s'.workers[w]) && FlagsOk(s', w)
    requires t < |s.tasks| ==> TaskOk(s', t) && (s'.tasks[t].place.InList? || !s.tasks[t].place.InList?)
    requires s'.active == s.active - ActiveOne(s.workers[w]) + ActiveOne(s'.workers[w])
    requires s'.idle == s.idle - IdleOne(s.workers[w]) + IdleOne(s'.workers[w])
    ensures Inv(s')
  {
    WorkersFollow(s, s', w, t);
    CountersFollow(s, s', w, t);
    TasksFollow(s, s', w, t);
  }

  lemma {:induction false} TakeKeepsQueue(s: State, w: nat, k: nat)
    requires Inv(s) && w < |s.workers| && k < |s.queue| && s.queue[k].task < |s.tasks|
    ensures QueueOk(Take(s, w, k))
  {
    var q := Take(s, w, k).queue;
    assert forall i :: 0 <= i < |q| ==> q[i] == s.queue[if i < k then i else i + 1];
  }

  lemma {:induction false} TakeKeepsListed(s: State, w: nat, k: nat, t: nat)
    requires w < |s.workers| && k < |s.queue| && s.queue[k].task < |s.tasks|
    requires InQueue(s, t) && t != s.queue[k].task
    ensures InQueue(Take(s, w, k), t)
  {
    var s' := Take(s, w, k);
    var i :| 0 <= i < |s.queue| && s.queue[i].task == t;
    assert s'.queue[if i < k then i else i - 1].task == t;
  }

  lemma {:induction false} TakeKeeps(s: State, w: nat, k: nat)
    requires Inv(s) && w < |s.workers| && s.workers[w].phase == Scan
    requires k < |s.queue| && s.queue[k].task < |s.tasks|
    ensures Inv(Take(s, w, k))
  {
    var s' := Take(s, w, k);
    var t := s.queue[k].task;
    assert TaskOk(s, t) && LocalsOk(s.workers[w]) && FlagsOk(s, w);
    TakeKeepsQueue(s, w, k);
    WorkersFollow(s, s', w, t);
    CountersFollow(s, s', w, t);
    forall u | 0 <= u < |s.tasks| && u != t && InQueue(s, u) ensures InQueue(s', u) {
      TakeKeepsListed(s, w, k, u);
    }
    TasksFollow(s, s', w, t);
  }

  lemma {:induction false} SearchKeeps(s: State, w: nat)
    requires Inv(s) && Enabled(s, Search(w))
    ensures Inv(Apply(s, Search(w)))
  {
    if FirstFor(s, w, 0) < |s.queue| {
      TakeKeeps(s, w, FirstFor(s, w, 0));
    } else {
      assert HandOk(s, w) && LocalsOk(s.workers[w]) && FlagsOk(s, w);
      QuietMove(s, SetPhase(s, w, Empty), w, |s.tasks|);
    }
  }

  lemma {:induction false} SwapInKeeps(s: State, w: nat)
    requires Inv(s) && Enabled(s, SwapIn(w))
    ensures Inv(Apply(s, SwapIn(w)))
  {
    var t := s.workers[w].phase.task;
    assert HandOk(s, w) && LocalsOk(s.workers[w]) && FlagsOk(s, w) && TaskOk(s, t);
    QuietMove(s, Apply(s, SwapIn(w)), w, t);
  }

  // Pushing an entry

  lemma {:induction false} PushKeeps(s: State, t: nat, pin: Pin, x: Task)
    requires |s.workers| > 0 && QueueOk(s) && WorkersOk(s) && CountersOk(s)
    requires forall u :: 0 <= u < |s.tasks| && u != t ==> TaskOk(s, u)
    requires t < |s.tasks| && s.tasks[t].place != InList
    requires forall w :: 0 <= w < |s.workers| ==> !Holds(s.workers[w], t)
    requires x.place == InList && Queueable(x.fiber)
    ensures Inv(Push(SetTask(s, t, x), Entry(t, pin)))
  {
    var s' := Push(SetTask(s, t, x), Entry(t, pin));
    assert s'.queue[|s.queue|].task == t;
    forall w | 0 <= w < |s'.workers|
      ensures HandOk(s', w) && LocalsOk(s'.workers[w]) && FlagsOk(s', w)
    {
      assert HandOk(s, w) && LocalsOk(s.workers[w]) && FlagsOk(s, w);
    }
    forall u | 0 <= u < |s'.tasks| ensures TaskOk(s', u) {
      if u != t {
        assert TaskOk(s, u);
        if InQueue(s, u) {
          var i :| 0 <= i < |s.queue| && s.queue[i].task == u;
          assert s'.queue[i].task == u;
        }
      }
    }
  }

  lemma {:induction false} NewTaskKeeps(s: State, script: Script, asCallback: bool, pin: Pin)
    requires Inv(s)
    ensures Inv(NewTask(s, script, asCallback, pin))
  {
    var t := |s.tasks|;
    var x := Task(script, if asCallback then None else Some(INIT), InList);
    var s1 := s.(tasks := s.tasks + [x.(place := Done)]);
    forall w | 0 <= w < |s.workers|
      ensures HandOk(s1, w) && LocalsOk(s1.workers[w]) && FlagsOk(s1, w) && !Holds(s1.workers[w], t)
    {
      assert HandOk(s, w) && LocalsOk(s.workers[w]) && FlagsOk(s, w);
    }
    forall u | 0 <= u < |s1.tasks| && u != t ensures TaskOk(s1, u) {
      assert TaskOk(s, u);
      if InQueue(s, u) {
        var i :| 0 <= i < |s.queue| && s.queue[i].task == u;
        assert s1.queue[i].task == u;
      }
    }
    PushKeeps(s1, t, pin, x);
    assert s.tasks + [x] == s1.tasks[t := x];
  }

  lemma {:induction false} WakeKeeps(s: State, t: nat, pin: Pin)
    requires Inv(s) && IsHeld(s, t)
    ensures Inv(WakeHeld(s, t, pin))
  {
    forall w | 0 <= w < |s.workers| ensures !Holds(s.workers[w], t) {
      assert HandOk(s, w);
    }
    assert TaskOk(s, t);
    PushKeeps(s, t, pin, s.tasks[t].(place := InList));
  }

  lemma {:induction false} SwapOutKeeps(s: State, w: nat, t: nat, rest: Script, st: FiberState)
    requires Inv(s) && w < |s.workers| && s.workers[w].phase == Running(t) && t < |s.tasks|
    requires st == READY || st == HOLD || st == TERM || st == EXCEPT
    ensures Inv(SwapOut(s, w, t, rest, st))
  {
    assert HandOk(s, w) && LocalsOk(s.workers[w]) && FlagsOk(s, w) && TaskOk(s, t);
    QuietMove(s, SwapOut(s, w, t, rest, st), w, t);
  }

  lemma {:induction false} AdvanceKeeps(s: State, w: nat, t: nat, rest: Script)
    requires Inv(s) && w < |s.workers| && s.workers[w].phase == Running(t) && t < |s.tasks|
    ensures Inv(SetTask(s, t, s.tasks[t].(script := rest)))
  {
    assert HandOk(s, w) && LocalsOk(s.workers[w]) && FlagsOk(s, w) && TaskOk(s, t);
    QuietMove(s, SetTask(s, t, s.tasks[t].(script := rest)), w, t);
  }

  lemma {:induction false} ActKeeps(s: State, w: nat)
    requires Inv(s) && Enabled(s, Act(w))
    ensures Inv(Apply(s, Act(w)))
  {
    var t := s.workers[w].phase.task;
    match s.tasks[t].script
    case Finish => SwapOutKeeps(s, w, t, Finish, TERM);
    case Throw => SwapOutKeeps(s, w, t, Throw, EXCEPT);
    case YieldReady(rest) => SwapOutKeeps(s, w, t, rest, READY);
    case YieldHold(rest) => SwapOutKeeps(s, w, t, rest, HOLD);
    case Spawn(child, asCallback, target, rest) =>
      AdvanceKeeps(s, w, t, rest);
      NewTaskKeeps(SetTask(s, t, s.tasks[t].(script := rest)), child, asCallback, Resolve(target, w));
    case Wake(u, target, rest) =>
      var s1 := SetTask(s, t, s.tasks[t].(script := rest));
      AdvanceKeeps(s, w, t, rest);
      if IsHeld(s1, u) {
        WakeKeeps(s1, u, Resolve(target, w));
      }
  }

  lemma {:induction false} SettleKeeps(s: State, w: nat)
    requires Inv(s) && Enabled(s, Settle(w))
    ensures Inv(Apply(s, Settle(w)))
  {
    var t := s.workers[w].phase.task;
    if s.tasks[t].fiber == Some(READY) {
      RequeueKeeps(s, w, t);
    } else {
      LetGoKeeps(s, w, t);
    }
  }

  lemma {:induction false} LetGoLocals(s: State, w: nat, t: nat)
    requires w < |s.workers| && s.workers[w].phase == Uncounted(t) && t < |s.tasks|
    requires LocalsOk(s.workers[w]) && FlagsOk(s, w)
    ensures |DoSettle(s, w, t).workers| == |s.workers|
    ensures LocalsOk(DoSettle(s, w, t).workers[w]) && FlagsOk(DoSettle(s, w, t), w)
  {}

  lemma {:induction false} LetGoKeeps(s: State, w: nat, t: nat)
    requires Inv(s) && w < |s.workers| && s.workers[w].phase == Uncounted(t) && t < |s.tasks|
    requires s.tasks[t].fiber != Some(READY)
    ensures Inv(DoSettle(s, w, t))
  {
    assert HandOk(s, w) && LocalsOk(s.workers[w]) && FlagsOk(s, w);
    assert TaskOk(s, t);
    assert Ended(s.tasks[t].fiber) || s.tasks[t].fiber == Some(HOLD);
    LetGoLocals(s, w, t);
    QuietMove(s, DoSettle(s, w, t), w, t);
  }

  lemma {:induction false} RequeueKeeps(s: State, w: nat, t: nat)
    requires Inv(s) && w < |s.workers| && s.workers[w].phase == Uncounted(t) && t < |s.tasks|
    requires s.tasks[t].fiber == Some(READY)
    ensures Inv(DoSettle(s, w, t))
  {
    var task := s.tasks[t];
    assert HandOk(s, w) && LocalsOk(s.workers[w]) && FlagsOk(s, w) && TaskOk(s, t);
    var s1 := SetWorker(s, w, s.workers[w].(phase := Scan, spare := SpareAfter(s.workers[w].spare, task.fiber)));
    WorkersFollow(s, s1, w, t);
    CountersFollow(s, s1, w, t);
    forall v | 0 <= v < |s1.workers| ensures !Holds(s1.workers[v], t) {
      assert HandOk(s, v);
    }
    forall u | 0 <= u < |s1.tasks| && u != t ensures TaskOk(s1, u) {
      assert TaskOk(s, u);
      if InQueue(s, u) {
        var i :| 0 <= i < |s.queue| && s.queue[i].task == u;
        assert s1.queue[i].task == u;
      }
    }
    PushKeeps(s1, t, Any, task.(place := InList));
  }

  lemma {:induction false} EnterKeeps(s: State, l: Label, w: nat)
    requires Inv(s) && Enabled(s, l) && (l == Begin(w) || (l == CallRoot && w == 0))
    ensures Inv(Apply(s, l))
  {
    assert HandOk(s, w) && LocalsOk(s.workers[w]) && FlagsOk(s, w);
    QuietMove(s, Apply(s, l), w, |s.tasks|);
  }

  lemma {:induction false} UncountKeeps(s: State, w: nat)
    requires Inv(s) && Enabled(s, Uncount(w))
    ensures Inv(Apply(s, Uncount(w)))
  {
    assert HandOk(s, w) && LocalsOk(s.workers[w]) && FlagsOk(s, w);
    var t := s.workers[w].phase.task;
    assert TaskOk(s, t);
    QuietMove(s, Apply(s, Uncount(w)), w, t);
  }

  lemma {:induction false} IdleKeeps(s: State, l: Label, w: nat)
    requires Inv(s) && Enabled(s, l) && (l == EnterIdle(w) || l == AskStopping(w) || l == LeaveIdle(w))
    ensures Inv(Apply(s, l))
  {
    assert HandOk(s, w) && LocalsOk(s.workers[w]) && FlagsOk(s, w);
    QuietMove(s, Apply(s, l), w, |s.tasks|);
  }

  lemma {:induction false} FlagStepKeeps(s: State, l: Label)
    requires Inv(s) && Enabled(s, l) && (l.Start? || l.RequestStop? || l.FlagStop?)
    ensures Inv(Apply(s, l))
  {
    var s' := Apply(s, l);
    forall w | 0 <= w < |s'.workers|
      ensures HandOk(s', w) && LocalsOk(s'.workers[w]) && FlagsOk(s', w)
    {
      assert HandOk(s, w) && LocalsOk(s.workers[w]) && FlagsOk(s, w);
    }
    forall u | 0 <= u < |s'.tasks| ensures TaskOk(s', u) {
      assert TaskOk(s, u);
      if InQueue(s, u) {
        var i :| 0 <= i < |s.queue| && s.queue[i].task == u;
        assert s'.queue[i].task == u;
      }
    }
  }

  lemma {:induction false} StepKeepsInv(s: State, l: Label)
    requires Inv(s) && Enabled(s, l)
    ensures Inv(Apply(s, l))
  {
    match l
    case Start => FlagStepKeeps(s, l);
    case RequestStop => FlagStepKeeps(s, l);
    case FlagStop => FlagStepKeeps(s, l);
    case Begin(w) => EnterKeeps(s, l, w);
    case CallRoot => EnterKeeps(s, l, 0);
    case Submit(script, asCallback, pin) => NewTaskKeeps(s, script, asCallback, pin);
    case SubmitHeld(t, pin) => WakeKeeps(s, t, pin);
    case Search(w) => SearchKeeps(s, w);
    case SwapIn(w) => SwapInKeeps(s, w);
    case Act(w) => ActKeeps(s, w);
    case Uncount(w) => UncountKeeps(s, w);
    case Settle(w) => SettleKeeps(s, w);
    case EnterIdle(w) => IdleKeeps(s, l, w);
    case AskStopping(w) => IdleKeeps(s, l, w);
    case LeaveIdle(w) => IdleKeeps(s, l, w);
  }

  lemma {:induction false} RunKeepsInv(s: State, ls: seq<Label>, k: nat)
    requires Inv(s) && IsRun(s, ls) && k <= |ls|
    ensures Inv(At(s, ls, k))
    decreases k
  {
    if k > 0 {
      StepKeepsInv(s, ls[0]);
      RunKeepsInv(Apply(s, ls[0]), ls[1..], k - 1);
    }
  }
}
