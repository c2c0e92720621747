/** The states of the fibers under the control transfers of `FiberControl`: who is EXEC, what a yield or an
    ending leaves behind, and what can be done with it. */
module FiberStates {
  import opened Scripts
  import opened FiberControl

  /** A fiber that workers swap in is EXEC exactly while some thread runs on it. */
  ghost predicate ExecIffRuns(m: Machine) {
    forall f :: 0 <= f < |m.fibers| && !Fixed(m, f) ==>
      (m.fibers[f].state == EXEC <==> exists i :: 0 <= i < |m.threads| && m.threads[i].runs == f)
  }

  lemma {:induction false} RunsTop(m: Machine, a: Stacks, i: nat)
    requires Refines(m, a) && i < |m.threads|
    ensures a[i] != [] && m.threads[i] == Thread(Top(a[i]), MainOf(m, i), i, Top(a[i])) && Top(a[i]) < |m.fibers|
  {
    assert Nested(m, a[i], i);
  }

  lemma {:induction false} OneRunner(m: Machine, a: Stacks, i: nat, j: nat)
    requires Refines(m, a) && i < |m.threads| && j < |m.threads| && i != j
    ensures m.threads[i].runs != m.threads[j].runs
  {
    RunsTop(m, a, i);
    RunsTop(m, a, j);
  }

  /** What one move does to the fiber states and to where threads run. */
  lemma {:induction false} MoveStates(m: Machine, a: Stacks, v: Move)
    requires Refines(m, a) && Enabled(m, v)
    ensures var m' := Apply(m, v);
      && |m'.threads| == |m.threads| && m'.caller == m.caller && |m.fibers| <= |m'.fibers|
      && (v.SwapIn? ==> m'.threads[v.i].runs == v.f && m'.fibers[v.f].state == EXEC)
      && (v.SwapOut? ==> m.threads[v.i].runs < |m.fibers| && m'.fibers[m.threads[v.i].runs].state == v.state)
      && (v.SwapOut? ==> m'.threads[v.i].runs == MainOf(m, v.i))
      && (v.Call? ==> m'.threads[0].runs == |m.threads| && m'.fibers[|m.threads|].state == EXEC)
      && (v.Back? ==> m'.threads[0].runs == 0 && m'.fibers[|m.threads|].state == v.state)
      && (v.NewFiber? ==> |m'.fibers| == |m.fibers| + 1 && m'.fibers[|m.fibers|].state == INIT)
      && (v.Reset? ==> m'.fibers[v.f].state == INIT)
  {
    if v.SwapIn? || v.SwapOut? {
      RunsTop(m, a, v.i);
      MoveRefines(m, a, v);
      RunsTop(Apply(m, v), Nest(a, m, v), v.i);
    } else if v.Call? || v.Back? {
      RunsTop(m, a, 0);
      MoveRefines(m, a, v);
      RunsTop(Apply(m, v), Nest(a, m, v), 0);
      assert Nested(m, a[0], 0);
    }
  }

  /** Whom a move concerns: at most one thread and one fiber. */
  function Mover(v: Move): Option<nat> {
    match v
    case SwapIn(i, _) => Some(i)
    case SwapOut(i, _) => Some(i)
    case Call => Some(0)
    case Back(_) => Some(0)
    case _ => None
  }

  predicate Concerns(m: Machine, v: Move, f: nat) {
    match v
    case NewFiber => f >= |m.fibers|
    case Reset(g) => f == g
    case SwapIn(_, g) => f == g
    case SwapOut(i, _) => i < |m.threads| && f == m.threads[i].runs
    case Call => f == |m.threads|
    case Back(_) => f == |m.threads|
  }

  lemma {:induction false} OthersUnmoved(m: Machine, a: Stacks, v: Move)
    requires Refines(m, a) && Enabled(m, v)
    ensures var m' := Apply(m, v);
      && |m'.threads| == |m.threads| && |m.fibers| <= |m'.fibers|
      && (forall j :: 0 <= j < |m.threads| && Mover(v) != Some(j) ==> m'.threads[j] == m.threads[j])
      && (forall f :: 0 <= f < |m.fibers| && !Concerns(m, v, f) ==> m'.fibers[f].state == m.fibers[f].state)
  {
    if Mover(v).Some? {
      RunsTop(m, a, Mover(v).value);
    }
  }

  lemma {:induction false} MoveKeepsExec(m: Machine, a: Stacks, v: Move, f: nat)
    requires Refines(m, a) && Enabled(m, v) && ExecIffRuns(m) && f < |Apply(m, v).fibers| && !Fixed(m, f)
    ensures var m' := Apply(m, v);
      m'.fibers[f].state == EXEC <==> exists i :: 0 <= i < |m'.threads| && m'.threads[i].runs == f
  {
    var m' := Apply(m, v);
    MoveStates(m, a, v);
    OthersUnmoved(m, a, v);
    MoveRefines(m, a, v);
    if Concerns(m, v, f) {
      ConcernedExec(m, a, v, f);
    } else {
      forall i | 0 <= i < |m.threads| ensures m'.threads[i].runs == f <==> m.threads[i].runs == f {
        UnconcernedRuns(m, a, v, f, i);
      }
    }
  }

  lemma {:induction false} UnconcernedRuns(m: Machine, a: Stacks, v: Move, f: nat, i: nat)
    requires Refines(m, a) && Enabled(m, v) && f < |m.fibers| && !Fixed(m, f) && !Concerns(m, v, f) && i < |m.threads|
    ensures |Apply(m, v).threads| == |m.threads|
    ensures Apply(m, v).threads[i].runs == f <==> m.threads[i].runs == f
  {
    MoveStates(m, a, v);
    OthersUnmoved(m, a, v);
    RunsTop(m, a, i);
    if v.Back? || v.Call? {
      RunsTop(m, a, 0);
    }
  }

  lemma {:induction false} ConcernedExec(m: Machine, a: Stacks, v: Move, f: nat)
    requires Refines(m, a) && Enabled(m, v) && ExecIffRuns(m)
    requires f < |Apply(m, v).fibers| && !Fixed(m, f) && Concerns(m, v, f)
    ensures var m' := Apply(m, v);
      m'.fibers[f].state == EXEC <==> exists i :: 0 <= i < |m'.threads| && m'.threads[i].runs == f
  {
    var m' := Apply(m, v);
    MoveStates(m, a, v);
    MoveRefines(m, a, v);
    OthersUnmoved(m, a, v);
    if v.SwapOut? {
      forall i | 0 <= i < |m.threads| ensures m'.threads[i].runs != f {
        if i != v.i {
          OneRunner(m, a, i, v.i);
        }
      }
    } else if v.NewFiber? {
      forall i | 0 <= i < |m.threads| ensures m'.threads[i].runs != f {
        RunsTop(m, a, i);
      }
    }
  }

  lemma {:induction false} RunKeepsExec(m: Machine, a: Stacks, vs: seq<Move>)
    requires Refines(m, a) && ExecIffRuns(m) && IsRun(m, vs)
    ensures ExecIffRuns(Final(m, vs)) && Refines(Final(m, vs), NestAll(a, m, vs))
    decreases |vs|
  {
    if vs != [] {
      MoveKeepsAll(m, a, vs[0]);
      RunKeepsExec(Apply(m, vs[0]), Nest(a, m, vs[0]), vs[1..]);
    }
  }

  lemma {:induction false} Starts(n: nat, caller: bool, vs: seq<Move>)
    requires n > 0 && IsRun(Start(n, caller), vs)
    ensures var m, a := Final(Start(n, caller), vs), NestAll(Bottoms(n), Start(n, caller), vs);
      Refines(m, a) && ExecIffRuns(m) && |m.threads| == n
  {
    StartRefines(n, caller);
    RunThreads(Start(n, caller), vs);
    RunKeepsExec(Start(n, caller), Bottoms(n), vs);
  }

  /** In every interleaving a fiber that is neither a thread's own nor the root is EXEC exactly while some
      thread runs on it. */
  lemma {:induction false} ExecIffRunning(n: nat, caller: bool, vs: seq<Move>, f: nat)
    requires n > 0 && IsRun(Start(n, caller), vs)
    requires f < |Final(Start(n, caller), vs).fibers| && f >= n && !(caller && f == n)
    ensures var m := Final(Start(n, caller), vs);
      m.fibers[f].state == EXEC <==> exists i :: 0 <= i < |m.threads| && m.threads[i].runs == f
  {
    Starts(n, caller, vs);
    CallerStays(Start(n, caller), vs);
  }

  lemma {:induction false} CallerStays(m: Machine, vs: seq<Move>)
    requires IsRun(m, vs)
    ensures Final(m, vs).caller == m.caller
    decreases |vs|
  {
    if vs != [] {
      CallerStays(Apply(m, vs[0]), vs[1..]);
    }
  }

  /** Whoever is swapped in or called is EXEC and runs; whoever yields or ends is left in the state it yielded
      or ended with; new and reset fibers are INIT; and no other fiber changes its state. */
  lemma {:induction false} StatesFollow(n: nat, caller: bool, vs: seq<Move>, v: Move)
    requires n > 0 && IsRun(Start(n, caller), vs) && Enabled(Final(Start(n, caller), vs), v)
    ensures var m := Final(Start(n, caller), vs);
      var m' := Apply(m, v);
      && |m.fibers| <= |m'.fibers| && |m'.threads| == |m.threads| == n
      && (v.SwapIn? ==> m'.threads[v.i].runs == v.f && m'.fibers[v.f].state == EXEC)
      && (v.SwapOut? ==> m.threads[v.i].runs < |m.fibers| && m'.fibers[m.threads[v.i].runs].state == v.state)
      && (v.Call? ==> n < |m.fibers| && m'.threads[0].runs == n && m'.fibers[n].state == EXEC)
      && (v.Back? ==> n < |m.fibers| && m.threads[0].runs == n && m'.fibers[n].state == v.state)
      && (v.NewFiber? ==> |m'.fibers| == |m.fibers| + 1 && m'.fibers[|m.fibers|].state == INIT)
      && (v.Reset? ==> m'.fibers[v.f].state == INIT)
      && (forall f :: 0 <= f < |m.fibers| && !Concerns(m, v, f) ==> m'.fibers[f].state == m.fibers[f].state)
  {
    Starts(n, caller, vs);
    var m, a := Final(Start(n, caller), vs), NestAll(Bottoms(n), Start(n, caller), vs);
    MoveStates(m, a, v);
    OthersUnmoved(m, a, v);
  }

  predicate Resumes(v: Move, f: nat) { v.SwapIn? && v.f == f }

  lemma {:induction false} OneMoveStays(m: Machine, a: Stacks, v: Move, f: nat)
    requires Refines(m, a) && ExecIffRuns(m) && Enabled(m, v) && f < |m.fibers| && !Fixed(m, f) && !Resumes(v, f)
    requires m.fibers[f].state == READY || m.fibers[f].state == HOLD
    ensures var m' := Apply(m, v);
      && |m'.threads| == |m.threads| && Refines(m', Nest(a, m, v)) && ExecIffRuns(m')
      && f < |m'.fibers| && m'.fibers[f].state == m.fibers[f].state && !Fixed(m', f)
  {
    if v.SwapOut? {
      assert m.threads[v.i].runs != f;
    }
    OthersUnmoved(m, a, v);
    MoveStates(m, a, v);
    MoveKeepsAll(m, a, v);
  }

  lemma {:induction false} MoveKeepsAll(m: Machine, a: Stacks, v: Move)
    requires Refines(m, a) && ExecIffRuns(m) && Enabled(m, v)
    ensures var m' := Apply(m, v); |m'.threads| == |m.threads| && Refines(m', Nest(a, m, v)) && ExecIffRuns(m')
  {
    var m' := Apply(m, v);
    MoveRefines(m, a, v);
    OthersUnmoved(m, a, v);
    MoveStates(m, a, v);
    forall f | 0 <= f < |m'.fibers| && !Fixed(m', f)
      ensures m'.fibers[f].state == EXEC <==> exists i :: 0 <= i < |m'.threads| && m'.threads[i].runs == f
    {
      MoveKeepsExec(m, a, v, f);
    }
  }

  lemma {:induction false} StaysYielded(m: Machine, a: Stacks, vs: seq<Move>, f: nat)
    requires Refines(m, a) && ExecIffRuns(m) && IsRun(m, vs) && f < |m.fibers| && !Fixed(m, f)
    requires m.fibers[f].state == READY || m.fibers[f].state == HOLD
    requires forall k :: 0 <= k < |vs| ==> !Resumes(vs[k], f)
    ensures var m' := Final(m, vs);
      f < |m'.fibers| && m'.fibers[f].state == m.fibers[f].state && !Fixed(m', f)
    decreases |vs|
  {
    if vs != [] {
      var m', rest := Apply(m, vs[0]), vs[1..];
      assert !Resumes(vs[0], f);
      OneMoveStays(m, a, vs[0], f);
      assert forall k :: 0 <= k < |rest| ==> rest[k] == vs[k + 1];
      StaysYielded(m', Nest(a, m, vs[0]), rest, f);
    }
  }

  /** A fiber that yielded READY or HOLD, on whichever thread, can be swapped in by any thread that stands in
      its `run`, until one of them does so. */
  lemma {:induction false} CanBeResumed(n: nat, caller: bool, vs: seq<Move>, i: nat, st: FiberState,
                                        us: seq<Move>, j: nat)
    requires n > 0 && IsRun(Start(n, caller), vs) && Enabled(Final(Start(n, caller), vs), SwapOut(i, st))
    requires st == READY || st == HOLD
    requires IsRun(Apply(Final(Start(n, caller), vs), SwapOut(i, st)), us)
    requires var f := Final(Start(n, caller), vs).threads[i].runs;
      forall k :: 0 <= k < |us| ==> !Resumes(us[k], f)
    ensures var m := Final(Start(n, caller), vs);
      var f, m' := m.threads[i].runs, Final(Apply(m, SwapOut(i, st)), us);
      && f < |m'.fibers| && m'.fibers[f].state == st
      && (j < |m'.threads| && m'.threads[j].runs == m'.threads[j].main ==> Enabled(m', SwapIn(j, f)))
  {
    Starts(n, caller, vs);
    var m, a := Final(Start(n, caller), vs), NestAll(Bottoms(n), Start(n, caller), vs);
    var v, f := SwapOut(i, st), m.threads[i].runs;
    var m1 := Apply(m, v);
    MoveStates(m, a, v);
    MoveKeepsAll(m, a, v);
    StaysYielded(m1, Nest(a, m, v), us, f);
    var m' := Final(m1, us);
    if j < |m'.threads| {
      RunKeepsExec(m1, Nest(a, m, v), us);
      RunsTop(m', NestAll(Nest(a, m, v), m1, us), j);
    }
  }

  /** A fiber that has ended, or was never started, can be given a new callback; one that yielded cannot. */
  lemma {:induction false} EndedCanBeReset(n: nat, caller: bool, vs: seq<Move>, v: Move)
    requires n > 0 && IsRun(Start(n, caller), vs) && Enabled(Final(Start(n, caller), vs), v)
    requires v.SwapOut? || v.NewFiber?
    ensures var m := Final(Start(n, caller), vs);
      && (v.SwapOut? ==> (Enabled(Apply(m, v), Reset(m.threads[v.i].runs)) <==> v.state == TERM || v.state == EXCEPT))
      && (v.NewFiber? ==> Enabled(Apply(m, v), Reset(|m.fibers|)))
  {
    Starts(n, caller, vs);
    var m, a := Final(Start(n, caller), vs), NestAll(Bottoms(n), Start(n, caller), vs);
    MoveStates(m, a, v);
    RunThreads(Start(n, caller), vs);
  }
}
