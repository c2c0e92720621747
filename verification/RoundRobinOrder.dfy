/** The laws that make the interpreter a round-robin one: who is dispatched when, what a turn brings, and
    that nobody is forgotten. */
module RoundRobinOrder {
  import opened Scripts
  import opened Seqs
  import opened RoundRobin

  // The order of dispatches

  /** Where a segment of this script ends. */
  function StopOf(script: Script): Script {
    match script
    case Spawn(_, _, _, rest) => StopOf(rest)
    case Wake(_, _, rest) => StopOf(rest)
    case _ => script
  }

  /** The tasks a segment of this script makes, with their targets, in order. */
  function Children(script: Script): seq<(Script, Target)> {
    match script
    case Spawn(child, _, target, rest) => [(child, target)] + Children(rest)
    case Wake(_, _, rest) => Children(rest)
    case _ => []
  }

  /** The target of the first call in the segment that wakes task `u`. */
  function FirstWake(script: Script, u: nat): Option<Target> {
    match script
    case Spawn(_, _, _, rest) => FirstWake(rest, u)
    case Wake(v, target, rest) => if v == u then Some(target) else FirstWake(rest, u)
    case _ => None
  }

  /** Listed for this thread, or for another. */
  predicate IsListed(x: Task, target: Target, thread: nat) {
    x.status == if target == AnyThread || target == OwnThread || target == OnThread(thread) then Queued else Elsewhere
  }

  /** From `m` to `m'`, where `t` is active: nothing is taken off the queue, and only `t` and held tasks
      change; what is new in the queue is new or was held. */
  ghost predicate Grows(m: Machine, m': Machine, t: nat) {
    && m'.thread == m.thread && |m.tasks| <= |m'.tasks| && m.queue <= m'.queue
    && (forall u :: 0 <= u < |m.tasks| && u != t && m.tasks[u].status != Held ==> m'.tasks[u] == m.tasks[u])
    && (forall i :: |m.queue| <= i < |m'.queue| ==> m'.queue[i] >= |m.tasks| || IsHeld(m, m'.queue[i]))
  }

  lemma {:induction false} GrowsFurther(m: Machine, m1: Machine, m2: Machine, t: nat)
    requires Grows(m, m1, t) && Grows(m1, m2, t) && t < |m.tasks| && m.tasks[t].status == Active
    requires forall u :: 0 <= u < |m.tasks| && m1.tasks[u].status == Held ==> m1.tasks[u] == m.tasks[u]
    ensures Grows(m, m2, t)
  {
    assert m2.queue[..|m.queue|] == m.queue;
  }

  lemma {:induction false} ActOnceGrows(m: Machine, t: nat)
    requires t < |m.tasks| && m.tasks[t].status == Active && !Stops(m.tasks[t].script)
    ensures var m1 := ActOnce(m, t);
      && Grows(m, m1, t)
      && (forall u :: 0 <= u < |m.tasks| && m1.tasks[u].status == Held ==> m1.tasks[u] == m.tasks[u])
      && m1.tasks[t] == Task(m.tasks[t].script.rest, Active)
  {
    match m.tasks[t].script
    case Spawn(_, _, _, _) =>
    case Wake(_, _, _) =>
  }

  lemma {:induction false} SegmentGrows(m: Machine, t: nat)
    requires t < |m.tasks| && m.tasks[t].status == Active
    ensures var m1 := Segment(m, t);
      && Grows(m, m1, t) && m1.tasks[t] == Task(StopOf(m.tasks[t].script), Active)
    decreases m.tasks[t].script
  {
    if !Stops(m.tasks[t].script) {
      ActOnceGrows(m, t);
      SegmentGrows(ActOnce(m, t), t);
      GrowsFurther(m, ActOnce(m, t), Segment(m, t), t);
    }
  }

  /** New tasks are queued in the order they were made. */
  ghost predicate NewInOrder(q: seq<nat>, n: nat) {
    forall i, j :: 0 <= i < j < |q| && q[i] >= n && q[j] >= n ==> q[i] < q[j]
  }

  /** What a segment of `t` brings: its children, in order, and the held tasks it wakes. */
  ghost predicate Brings(m: Machine, m': Machine, script: Script) {
    var kids := Children(script);
    && |m'.tasks| == |m.tasks| + |kids|
    && (forall k :: 0 <= k < |kids| ==>
          && m'.tasks[|m.tasks| + k].script == kids[k].0
          && IsListed(m'.tasks[|m.tasks| + k], kids[k].1, m.thread))
    && (forall u: nat :: IsHeld(m, u) ==>
          match FirstWake(script, u)
          case None => m'.tasks[u] == m.tasks[u]
          case Some(target) => m'.tasks[u].script == m.tasks[u].script && IsListed(m'.tasks[u], target, m.thread))
  }

  lemma {:induction false} BringsOne(m: Machine, t: nat)
    requires t < |m.tasks| && m.tasks[t].status == Active && !Stops(m.tasks[t].script)
    requires forall i :: 0 <= i < |m.queue| ==> m.queue[i] < |m.tasks|
    ensures var m1 := ActOnce(m, t);
      && (m.tasks[t].script.Spawn? ==>
            && m1.tasks == m.tasks[t := m1.tasks[t]] + [m1.tasks[|m.tasks|]]
            && m1.tasks[|m.tasks|].script == m.tasks[t].script.child
            && IsListed(m1.tasks[|m.tasks|], m.tasks[t].script.target, m.thread))
      && (m.tasks[t].script.Wake? ==>
            var u := m.tasks[t].script.task;
            && |m1.tasks| == |m.tasks|
            && (forall x :: 0 <= x < |m.tasks| && x != t && x != u ==> m1.tasks[x] == m.tasks[x])
            && (IsHeld(m, u) ==> m1.tasks[u].script == m.tasks[u].script
                                 && IsListed(m1.tasks[u], m.tasks[t].script.target, m.thread)))
  {
    match m.tasks[t].script
    case Spawn(_, _, _, _) =>
    case Wake(_, _, _) =>
  }

  lemma {:induction false} BringsAfterSpawn(m: Machine, m1: Machine, m2: Machine, t: nat, script: Script)
    requires script.Spawn? && t < |m.tasks| && m.tasks[t].status == Active && |m1.tasks| == |m.tasks| + 1
    requires m1.tasks == m.tasks[t := m1.tasks[t]] + [m1.tasks[|m.tasks|]] && m1.tasks[t].status == Active
    requires m1.thread == m.thread && m1.tasks[|m.tasks|].script == script.child
    requires IsListed(m1.tasks[|m.tasks|], script.target, m.thread)
    requires Grows(m1, m2, t) && Brings(m1, m2, script.rest)
    ensures Brings(m, m2, script)
  {
    var kids, rest := Children(script), Children(script.rest);
    forall k | 0 <= k < |kids|
      ensures m2.tasks[|m.tasks| + k].script == kids[k].0 && IsListed(m2.tasks[|m.tasks| + k], kids[k].1, m.thread)
    {
      if k > 0 {
        assert kids[k] == rest[k - 1] && |m.tasks| + k == |m1.tasks| + (k - 1);
      }
    }
    forall u: nat | IsHeld(m, u) ensures IsHeld(m1, u) && m1.tasks[u] == m.tasks[u] {}
  }

  lemma {:induction false} BringsAfterWake(m: Machine, m1: Machine, m2: Machine, t: nat, script: Script)
    requires script.Wake? && t < |m.tasks| == |m1.tasks| && m.tasks[t].status == Active && m1.thread == m.thread
    requires forall x :: 0 <= x < |m.tasks| && x != t && x != script.task ==> m1.tasks[x] == m.tasks[x]
    requires var u := script.task;
      IsHeld(m, u) ==> m1.tasks[u].script == m.tasks[u].script && IsListed(m1.tasks[u], script.target, m.thread)
    requires Grows(m1, m2, t) && Brings(m1, m2, script.rest)
    ensures Brings(m, m2, script)
  {
    forall u: nat | IsHeld(m, u)
      ensures match FirstWake(script, u)
              case None => m2.tasks[u] == m.tasks[u]
              case Some(target) => m2.tasks[u].script == m.tasks[u].script && IsListed(m2.tasks[u], target, m.thread)
    {
      if u != script.task {
        assert IsHeld(m1, u) && FirstWake(script, u) == FirstWake(script.rest, u);
      }
    }
  }

  lemma {:induction false} SegmentBrings(m: Machine, t: nat)
    requires Ready(m) && t < |m.tasks| && m.tasks[t].status == Active
    ensures Brings(m, Segment(m, t), m.tasks[t].script)
    decreases m.tasks[t].script
  {
    var script := m.tasks[t].script;
    if !Stops(script) {
      var m1 := ActOnce(m, t);
      BringsOne(m, t);
      ActOnceKeeps(m, t);
      ActOnceGrows(m, t);
      SegmentGrows(m1, t);
      SegmentBrings(m1, t);
      if script.Spawn? {
        BringsAfterSpawn(m, m1, Segment(m, t), t, script);
      } else {
        BringsAfterWake(m, m1, Segment(m, t), t, script);
      }
    }
  }

  lemma {:induction false} SegmentInOrder(m: Machine, t: nat)
    requires Ready(m) && t < |m.tasks| && m.tasks[t].status == Active
    ensures NewInOrder(Segment(m, t).queue, |m.tasks|)
    decreases m.tasks[t].script
  {
    if !Stops(m.tasks[t].script) {
      var m1, m2 := ActOnce(m, t), Segment(m, t);
      ActOnceKeeps(m, t);
      ActOnceGrows(m, t);
      SegmentGrows(m1, t);
      SegmentInOrder(m1, t);
      forall i, j | 0 <= i < j < |m2.queue| && m2.queue[i] >= |m.tasks| && m2.queue[j] >= |m.tasks|
        ensures m2.queue[i] < m2.queue[j]
      {
        assert j < |m1.queue| ==> m2.queue[j] == m1.queue[j];
        assert i < |m1.queue| ==> m2.queue[i] == m1.queue[i];
      }
    }
  }

  /** What becomes of the task whose segment is over. */
  predicate PutDown(x: Task, stop: Script) {
    match stop
    case YieldReady(rest) => x == Task(rest, Queued)
    case YieldHold(rest) => x == Task(rest, Held)
    case _ => x == Task(stop, Done)
  }

  /** One turn: whoever was waiting behind the head keeps its place; behind them come, in the order of the
      calls, the tasks made and woken in this segment; and last of all the task itself, if it yielded READY. */
  lemma {:induction false} TurnAppends(m: Machine)
    requires Ready(m) && m.queue != []
    ensures var t, m', n := m.queue[0], Turn(m), |m.tasks|;
      var script := m.tasks[t].script;
      && m.queue[1..] <= m'.queue
      && Brings(m, m', script) && NewInOrder(m'.queue, n)
      && PutDown(m'.tasks[t], StopOf(script))
      && (StopOf(script).YieldReady? <==> m'.queue != [] && m'.queue[|m'.queue| - 1] == t)
      && (forall u :: 0 <= u < n && u != t && m.tasks[u].status != Held ==> m'.tasks[u] == m.tasks[u])
  {
    var t, m1 := m.queue[0], Pick(m);
    PickKeeps(m);
    SegmentGrows(m1, t);
    SegmentBrings(m1, t);
    SegmentInOrder(m1, t);
    SegmentKeeps(m1, t);
    SettleAppends(m, m1, Segment(m1, t), t);
  }

  lemma {:induction false} SettleAppends(m: Machine, m1: Machine, m2: Machine, t: nat)
    requires Ready(m) && m.queue != [] && t == m.queue[0] && m1 == Pick(m) && Ready(m1)
    requires Grows(m1, m2, t) && Brings(m1, m2, m.tasks[t].script) && NewInOrder(m2.queue, |m.tasks|)
    requires Ready(m2) && m2.tasks[t] == Task(StopOf(m.tasks[t].script), Active) && Stops(m2.tasks[t].script)
    ensures var m', n := Settle(m2, t), |m.tasks|;
      var script := m.tasks[t].script;
      && m.queue[1..] <= m'.queue
      && Brings(m, m', script) && NewInOrder(m'.queue, n)
      && PutDown(m'.tasks[t], StopOf(script))
      && (StopOf(script).YieldReady? <==> m'.queue != [] && m'.queue[|m'.queue| - 1] == t)
      && (forall u :: 0 <= u < n && u != t && m.tasks[u].status != Held ==> m'.tasks[u] == m.tasks[u])
  {
    var m' := Settle(m2, t);
    assert m2.queue <= m'.queue;
    forall u: nat | IsHeld(m, u) ensures IsHeld(m1, u) && m1.tasks[u] == m.tasks[u] && u != t {}
    assert forall i :: 0 <= i < |m2.queue| ==> m2.queue[i] != t;
  }

  /** Everything listed is dispatched once, in order, before anything is dispatched twice. */
  lemma {:induction false} TraceInOrder(m: Machine, i: nat)
    requires Ready(m) && i < |m.queue|
    ensures i < |Trace(m)| && Trace(m)[i] == Dispatch(m.queue[i], m.tasks[m.queue[i]].script)
    decreases i
  {
    if i > 0 {
      var m' := Turn(m);
      TurnKeeps(m);
      TurnAppends(m);
      assert m'.queue[i - 1] == m.queue[1..][i - 1] == m.queue[i];
      TraceInOrder(m', i - 1);
    }
  }

  /** The dispatches that `all` adds to `sofar` begin with the queue of `m`, in order. */
  ghost predicate InTurn(sofar: seq<Dispatch>, m: Machine, all: seq<Dispatch>) {
    forall i :: 0 <= i < |m.queue| ==>
      && m.queue[i] < |m.tasks| && |sofar| + i < |all|
      && all[|sofar| + i] == Dispatch(m.queue[i], m.tasks[m.queue[i]].script)
  }

  lemma {:induction false} CourseInTurn(sofar: seq<Dispatch>, m: Machine, all: seq<Dispatch>, end: Machine)
    requires Ready(m) && Course(sofar, m) == (all, end)
    ensures InTurn(sofar, m, all)
  {
    forall i | 0 <= i < |m.queue|
      ensures m.queue[i] < |m.tasks| && |sofar| + i < |all|
        && all[|sofar| + i] == Dispatch(m.queue[i], m.tasks[m.queue[i]].script)
    {
      TraceInOrder(m, i);
    }
  }

  // Nothing is forgotten

  ghost predicate InQueue(m: Machine, u: nat) { exists i :: 0 <= i < |m.queue| && m.queue[i] == u }

  /** Every task marked as queued is. */
  ghost predicate Complete(m: Machine) {
    forall u: nat :: u < |m.tasks| && m.tasks[u].status == Queued ==> InQueue(m, u)
  }

  lemma {:induction false} StaysInQueue(m: Machine, m': Machine, u: nat)
    requires InQueue(m, u) && m.queue <= m'.queue
    ensures InQueue(m', u)
  {
    var i :| 0 <= i < |m.queue| && m.queue[i] == u;
    assert m'.queue[i] == u;
  }

  lemma {:induction false} AcceptComplete(m: Machine, script: Script, here: bool)
    requires Complete(m)
    ensures Complete(Accept(m, script, here))
  {
    var m' := Accept(m, script, here);
    forall u: nat | u < |m'.tasks| && m'.tasks[u].status == Queued ensures InQueue(m', u) {
      if u < |m.tasks| {
        StaysInQueue(m, m', u);
      } else {
        assert m'.queue[|m.queue|] == u;
      }
    }
  }

  lemma {:induction false} ResumeComplete(m: Machine, t: nat, here: bool)
    requires Complete(m) && IsHeld(m, t)
    ensures Complete(Resume(m, t, here))
  {
    var m' := Resume(m, t, here);
    forall u: nat | u < |m'.tasks| && m'.tasks[u].status == Queued ensures InQueue(m', u) {
      if u != t {
        StaysInQueue(m, m', u);
      } else {
        assert m'.queue[|m.queue|] == u;
      }
    }
  }

  lemma {:induction false} AdvanceComplete(m: Machine, t: nat)
    requires Complete(m) && t < |m.tasks| && !Stops(m.tasks[t].script)
    ensures Complete(Advance(m, t))
  {
    var m' := Advance(m, t);
    forall u: nat | u < |m'.tasks| && m'.tasks[u].status == Queued ensures InQueue(m', u) {
      StaysInQueue(m, m', u);
    }
  }

  lemma {:induction false} SegmentComplete(m: Machine, t: nat)
    requires Complete(m) && t < |m.tasks|
    ensures Complete(Segment(m, t))
    decreases m.tasks[t].script
  {
    if !Stops(m.tasks[t].script) {
      var m1 := Advance(m, t);
      AdvanceComplete(m, t);
      match m.tasks[t].script {
        case Spawn(child, _, target, _) => AcceptComplete(m1, child, PinsTo(target, m.thread));
        case Wake(u, target, _) =>
          if IsHeld(m1, u) {
            ResumeComplete(m1, u, PinsTo(target, m.thread));
          }
      }
      SegmentComplete(ActOnce(m, t), t);
    }
  }

  lemma {:induction false} PickComplete(m: Machine)
    requires Ready(m) && Complete(m) && m.queue != []
    ensures Complete(Pick(m))
  {
    var m' := Pick(m);
    forall u: nat | u < |m'.tasks| && m'.tasks[u].status == Queued ensures InQueue(m', u) {
      assert InQueue(m, u) && u != m.queue[0];
      var i :| 0 <= i < |m.queue| && m.queue[i] == u;
      assert m'.queue[i - 1] == u;
    }
  }

  lemma {:induction false} SettleComplete(m: Machine, t: nat)
    requires Complete(m) && t < |m.tasks| && Stops(m.tasks[t].script)
    ensures Complete(Settle(m, t))
  {
    var m' := Settle(m, t);
    forall u: nat | u < |m'.tasks| && m'.tasks[u].status == Queued ensures InQueue(m', u) {
      if u == t && m.tasks[t].script.YieldReady? {
        assert m'.queue[|m.queue|] == t;
      } else {
        assert m.tasks[u].status == Queued;
        StaysInQueue(m, m', u);
      }
    }
  }

  lemma {:induction false} TurnComplete(m: Machine)
    requires Ready(m) && Complete(m) && m.queue != []
    ensures Complete(Turn(m))
  {
    var t := m.queue[0];
    PickComplete(m);
    SegmentComplete(Pick(m), t);
    SettleComplete(Segment(Pick(m), t), t);
  }

  /** At the end no task is left queued. */
  lemma {:induction false} OutcomeComplete(m: Machine)
    requires Ready(m) && Complete(m)
    ensures forall u :: 0 <= u < |Outcome(m).tasks| ==> Outcome(m).tasks[u].status != Queued
    decreases Total(m)
  {
    if m.queue != [] {
      TurnKeeps(m);
      TurnComplete(m);
      OutcomeComplete(Turn(m));
    } else {
      assert forall u: nat :: !InQueue(m, u);
    }
  }
}
