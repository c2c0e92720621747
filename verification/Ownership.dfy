/** Who has a task, and what the counters and the assertions of `run` say about it,
    in every state some interleaving reaches. */
module Ownership {
  import opened Scripts
  import opened Seqs
  import opened Protocol
  import opened Invariant

  ghost predicate Reachable(s: State) {
    exists n: nat, caller: bool, ls: seq<Label> ::
      n > 0 && IsRun(Init(n, caller), ls) && s == Final(Init(n, caller), ls)
  }

  lemma {:induction false} InitReachable(n: nat, caller: bool)
    requires n > 0
    ensures Reachable(Init(n, caller))
  {
    assert IsRun(Init(n, caller), []);
    assert Final(Init(n, caller), []) == Init(n, caller);
  }

  lemma {:induction false} ReachableInv(s: State)
    requires Reachable(s)
    ensures Inv(s)
  {
    var n: nat, caller: bool, ls: seq<Label> :|
      n > 0 && IsRun(Init(n, caller), ls) && s == Final(Init(n, caller), ls);
    InitKeepsInv(n, caller);
    RunKeepsInv(Init(n, caller), ls, |ls|);
  }

  lemma {:induction false} RunExtends(s: State, ls: seq<Label>, l: Label)
    requires IsRun(s, ls) && Enabled(Final(s, ls), l)
    ensures IsRun(s, ls + [l]) && Final(s, ls + [l]) == Apply(Final(s, ls), l)
    decreases |ls|
  {
    var all := ls + [l];
    if ls == [] {
      assert IsRun(Apply(s, l), all[1..]);
      assert Final(s, all) == At(Apply(s, l), all[1..], 0);
    } else {
      assert all[1..] == ls[1..] + [l];
      RunExtends(Apply(s, ls[0]), ls[1..], l);
    }
  }

  lemma {:induction false} ReachableStep(s: State, l: Label)
    requires Reachable(s) && Enabled(s, l)
    ensures Reachable(Apply(s, l))
  {
    var n: nat, caller: bool, ls: seq<Label> :|
      n > 0 && IsRun(Init(n, caller), ls) && s == Final(Init(n, caller), ls);
    RunExtends(Init(n, caller), ls, l);
  }

  lemma {:induction false} ReachableRun(s: State, ls: seq<Label>, k: nat)
    requires Reachable(s) && IsRun(s, ls) && k <= |ls|
    ensures Reachable(At(s, ls, k))
    decreases k
  {
    if k > 0 {
      ReachableStep(s, ls[0]);
      ReachableRun(Apply(s, ls[0]), ls[1..], k - 1);
    }
  }

  /** No assertion of `swapIn`, of `reset` or of a local fiber's destructor fires, in any step. */
  lemma {:induction false} AssertionsNeverFire(s: State, l: Label)
    requires Reachable(s) && Enabled(s, l)
    ensures AssertionsHold(s, l)
  {
    ReachableInv(s);
    if l.SwapIn? || l.Settle? || l.EnterIdle? {
      var w := l.w;
      assert HandOk(s, w) && LocalsOk(s.workers[w]);
      if HasTask(s.workers[w].phase) {
        assert TaskOk(s, s.workers[w].phase.task);
      }
    }
  }

  /** The local fibers of `run`: outside a dispatch the spare is null or INIT, and the idle fiber is INIT,
      HOLD or TERM except while the worker is inside it. */
  lemma {:induction false} LocalFibersAtRest(s: State, w: nat)
    requires Reachable(s) && w < |s.workers|
    ensures var k := s.workers[w];
      && (!InSwap(k.phase) ==> k.spare == NoSpare || k.spare == Parked(INIT))
      && (k.phase != InIdle ==> k.idleFiber in {INIT, HOLD, TERM})
      && (k.phase == Exited && !(s.caller && w == 0) ==> k.idleFiber == TERM)
  {
    ReachableInv(s);
    assert LocalsOk(s.workers[w]) && FlagsOk(s, w);
  }

  /** Every accepted task is listed once, or in one worker's hand, or else it waits in HOLD for its
      owner, or it has ended; never two of these. */
  lemma {:induction false} OnePlace(s: State, t: nat)
    requires Reachable(s) && t < |s.tasks|
    ensures !(InQueue(s, t) && exists w :: 0 <= w < |s.workers| && Holds(s.workers[w], t))
    ensures forall i, j :: 0 <= i < j < |s.queue| ==> !(s.queue[i].task == t == s.queue[j].task)
    ensures forall v, w :: 0 <= v < w < |s.workers| ==> !(Holds(s.workers[v], t) && Holds(s.workers[w], t))
    ensures !InQueue(s, t) && (forall w :: 0 <= w < |s.workers| ==> !Holds(s.workers[w], t)) ==>
      s.tasks[t].fiber == Some(HOLD) || Ended(s.tasks[t].fiber)
    ensures InQueue(s, t) ==> Queueable(s.tasks[t].fiber)
  {
    ReachableInv(s);
    assert TaskOk(s, t);
    forall w | 0 <= w < |s.workers| && Holds(s.workers[w], t)
      ensures s.tasks[t].place == InHand(w)
    {
      assert HandOk(s, w);
    }
  }

  /** What a step may do to a task that the acting worker does not have in hand: move it from the list
      into that worker's hand, or from its owner back onto the list. */
  predicate Passed(l: Label, x: Task, x': Task) {
    && x'.script == x.script && x'.fiber == x.fiber
    && (x'.place == x.place
        || (x.place == InList && l.Search? && x'.place == InHand(l.w))
        || (x.place == Held && x'.place == InList))
  }

  predicate Handles(s: State, l: Label, t: nat)
    requires t < |s.tasks|
  {
    s.tasks[t].place.InHand? && Actor(l) == Some(s.tasks[t].place.worker)
  }

  lemma {:induction false} ActTouchesOne(s: State, w: nat, t: nat)
    requires Inv(s) && Enabled(s, Act(w)) && t < |s.tasks| && !Handles(s, Act(w), t)
    ensures t < |Apply(s, Act(w)).tasks| && Passed(Act(w), s.tasks[t], Apply(s, Act(w)).tasks[t])
  {
    assert HandOk(s, w);
    var r := s.workers[w].phase.task;
    match s.tasks[r].script
    case Spawn(_, _, _, _) =>
    case Wake(_, _, _) =>
    case _ =>
  }

  lemma {:induction false} SearchTouchesOne(s: State, w: nat, t: nat)
    requires Inv(s) && Enabled(s, Search(w)) && t < |s.tasks|
    ensures t < |Apply(s, Search(w)).tasks| && Passed(Search(w), s.tasks[t], Apply(s, Search(w)).tasks[t])
  {}

  lemma {:induction false} HandTouchesOne(s: State, l: Label, t: nat)
    requires Inv(s) && Enabled(s, l) && (l.SwapIn? || l.Uncount? || l.Settle?) && t < |s.tasks| && !Handles(s, l, t)
    ensures t < |Apply(s, l).tasks| && Passed(l, s.tasks[t], Apply(s, l).tasks[t])
  {
    assert HandOk(s, l.w);
  }

  /** Nobody touches the script or the fiber of a task but the worker that has it in hand. */
  lemma {:induction false} OnlyItsWorker(s: State, l: Label, t: nat)
    requires Inv(s) && Enabled(s, l) && t < |s.tasks| && !Handles(s, l, t)
    ensures t < |Apply(s, l).tasks| && Passed(l, s.tasks[t], Apply(s, l).tasks[t])
  {
    match l
    case Act(w) => ActTouchesOne(s, w, t);
    case Search(w) => SearchTouchesOne(s, w, t);
    case SwapIn(_) => HandTouchesOne(s, l, t);
    case Uncount(_) => HandTouchesOne(s, l, t);
    case Settle(_) => HandTouchesOne(s, l, t);
    case _ =>
  }

  /** A fiber is in state EXEC exactly while some worker is inside `swapIn` with it, and then only one is. */
  lemma {:induction false} ExecMeansOneRunner(s: State, t: nat)
    requires Reachable(s) && t < |s.tasks|
    ensures s.tasks[t].fiber == Some(EXEC) <==>
      exists w :: 0 <= w < |s.workers| && s.workers[w].phase == Running(t)
    ensures forall v, w :: 0 <= v < w < |s.workers| ==>
      !(s.workers[v].phase == Running(t) && s.workers[w].phase == Running(t))
  {
    ReachableInv(s);
    assert TaskOk(s, t);
    forall w | 0 <= w < |s.workers| && s.workers[w].phase == Running(t)
      ensures s.tasks[t].place == InHand(w)
    {
      assert HandOk(s, w);
    }
  }

  lemma {:induction false} CountsFit(ks: seq<Worker>)
    ensures Sum(ActiveOne, ks) + Sum(IdleOne, ks) <= |ks|
  {
    if ks != [] {
      CountsFit(ks[..|ks| - 1]);
    }
  }

  lemma {:induction false} SumPositive(f: Worker -> nat, ks: seq<Worker>, w: nat)
    requires w < |ks|
    ensures Sum(f, ks) >= f(ks[w])
  {
    SumUpdate(f, ks, w, ks[w]);
    var last := |ks| - 1;
    if w < last {
      SumPositive(f, ks[..last], w);
    }
  }

  /** The two counters count the workers between pick and decrement and those inside the idle swap;
      they stay within the number of workers and never wrap below zero. */
  lemma {:induction false} CountersCount(s: State)
    requires Reachable(s)
    ensures s.active == Sum(ActiveOne, s.workers) && s.idle == Sum(IdleOne, s.workers)
    ensures 0 <= s.active && 0 <= s.idle && s.active + s.idle <= |s.workers|
    ensures forall w :: 0 <= w < |s.workers| && s.workers[w].phase.Returned? ==> s.active > 0
    ensures forall w :: 0 <= w < |s.workers| && s.workers[w].phase.IdleBack? ==> s.idle > 0
  {
    ReachableInv(s);
    CountsFit(s.workers);
    forall w | 0 <= w < |s.workers|
      ensures s.active >= ActiveOne(s.workers[w]) && s.idle >= IdleOne(s.workers[w])
    {
      SumPositive(ActiveOne, s.workers, w);
      SumPositive(IdleOne, s.workers, w);
    }
  }

  /** When `stopping()` is true nothing runs, and whatever is neither ended nor held is READY in the
      hand of a worker that is about to put it back. */
  lemma {:induction false} StoppingMeansQuiet(s: State)
    requires Reachable(s) && Stopping(s)
    ensures forall w :: 0 <= w < |s.workers| ==> ActiveOne(s.workers[w]) == 0
    ensures forall t :: 0 <= t < |s.tasks| ==>
      || Ended(s.tasks[t].fiber)
      || s.tasks[t].fiber == Some(HOLD)
      || (s.tasks[t].fiber == Some(READY) && exists w :: 0 <= w < |s.workers| && s.workers[w].phase == Uncounted(t))
  {
    ReachableInv(s);
    SumZero(ActiveOne, s.workers);
    forall t | 0 <= t < |s.tasks|
      ensures
        || Ended(s.tasks[t].fiber)
        || s.tasks[t].fiber == Some(HOLD)
        || (s.tasks[t].fiber == Some(READY) && exists w :: 0 <= w < |s.workers| && s.workers[w].phase == Uncounted(t))
    {
      assert TaskOk(s, t);
      if s.tasks[t].place.InHand? {
        var w := s.tasks[t].place.worker;
        assert ActiveOne(s.workers[w]) == 0;
      }
    }
  }

  /** Neither listed nor in the hand of a worker, and in HOLD. */
  ghost predicate Waiting(s: State, t: nat) {
    && t < |s.tasks| && s.tasks[t].fiber == Some(HOLD)
    && !InQueue(s, t)
    && forall w :: 0 <= w < |s.workers| ==> !Holds(s.workers[w], t)
  }

  lemma {:induction false} WaitingIsHeld(s: State, t: nat)
    requires Inv(s) && t < |s.tasks|
    ensures Waiting(s, t) <==> IsHeld(s, t)
  {
    assert TaskOk(s, t);
    forall w | 0 <= w < |s.workers| && Holds(s.workers[w], t) ensures s.tasks[t].place == InHand(w) {
      assert HandOk(s, w);
    }
  }

  /** `schedule(f)` does not look at the state of `f`. Called on the fiber of any accepted task, it keeps
      the invariant exactly when the fiber is in HOLD, not listed and in no worker's hand. What goes
      wrong otherwise is in `Misuse`. */
  lemma {:induction false} ScheduleSafeIff(s: State, t: nat, pin: Pin)
    requires Reachable(s) && t < |s.tasks|
    ensures Inv(WakeHeld(s, t, pin)) <==> Waiting(s, t)
  {
    ReachableInv(s);
    WaitingIsHeld(s, t);
    var s' := WakeHeld(s, t, pin);
    if IsHeld(s, t) {
      WakeKeeps(s, t, pin);
    } else {
      assert TaskOk(s, t);
      match s.tasks[t].place
      case InList =>
        var i :| 0 <= i < |s.queue| && s.queue[i].task == t;
        assert s'.queue[i].task == s'.queue[|s.queue|].task;
      case InHand(w) => assert !HandOk(s', w);
      case Done => assert !TaskOk(s', t);
      case Recycled => assert !TaskOk(s', t);
      case Held =>
    }
  }
}
