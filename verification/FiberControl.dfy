/** Control transfers. The machine has the source's bookkeeping: per thread the recorded current fiber,
    the scheduler's main fiber and the thread's own fiber, and per fiber the context `swapcontext` saved
    in it. It refines a machine in which each thread just has a stack of nested fibers. */
module FiberControl {
  import opened Scripts

  /** A saved point of execution: on whose stack, and waiting for which fiber to come back. */
  datatype Context = Context(stack: nat, waitsFor: Option<nat>)

  datatype Fiber = Fiber(state: FiberState, ctx: Context)

  /** `current`, `main` and `own` are the thread-local `Fiber::t_fiber`, `Scheduler`'s `t_fiber` and
      `t_threadFiber`; `runs` is the fiber whose stack the thread is really on. */
  datatype Thread = Thread(current: nat, main: nat, own: nat, runs: nat)

  /** Thread `i` made fiber `i` as its own; with a caller, thread 0 also has the root fiber `|threads|`. */
  datatype Machine = Machine(fibers: seq<Fiber>, threads: seq<Thread>, caller: bool)

  datatype Move =
    | NewFiber
    | Reset(f: nat)
    | SwapIn(i: nat, f: nat)
    | SwapOut(i: nat, state: FiberState)
    | Call
    | Back(state: FiberState)

  function MainOf(m: Machine, i: nat): nat { if m.caller && i == 0 then |m.threads| else i }

  /** Thread fibers and the root fiber, which no worker swaps in. */
  predicate Fixed(m: Machine, f: nat) { f < |m.threads| || (m.caller && f == |m.threads|) }

  function Start(n: nat, caller: bool): Machine
    requires n > 0
  {
    var own := seq(n, i requires 0 <= i < n => Fiber(EXEC, Context(i, None)));
    var root := if caller then [Fiber(INIT, Context(n, None))] else [];
    Machine(own + root,
            seq(n, i requires 0 <= i < n => Thread(i, if caller && i == 0 then n else i, i, i)), caller)
  }

  /** `swapcontext(&from, &to)` on thread `i`: save where the thread is in `from`, go on from `to`. */
  function SwapContext(m: Machine, i: nat, from: nat, to: nat, waitsFor: Option<nat>): Machine
    requires i < |m.threads| && from < |m.fibers| && to < |m.fibers|
  {
    var t := m.threads[i];
    var saved := m.fibers[from := m.fibers[from].(ctx := Context(t.runs, waitsFor))];
    m.(fibers := saved, threads := m.threads[i := t.(runs := saved[to].ctx.stack)])
  }

  function SetThis(m: Machine, i: nat, f: nat): Machine
    requires i < |m.threads|
  {
    m.(threads := m.threads[i := m.threads[i].(current := f)])
  }

  function SetState(m: Machine, f: nat, st: FiberState): Machine
    requires f < |m.fibers|
  {
    m.(fibers := m.fibers[f := m.fibers[f].(state := st)])
  }

  /** Which code may make a move follows from the stack the thread is on: `run` executes on the main
      fiber, `stop()` on the caller's own fiber, tasks and idle loops on the others. */
  predicate Enabled(m: Machine, v: Move) {
    match v
    case NewFiber => true
    case Reset(f) => f < |m.fibers| && !Fixed(m, f) && m.fibers[f].state in {TERM, INIT, EXCEPT}
    case SwapIn(i, f) =>
      && i < |m.threads| && m.threads[i].runs == m.threads[i].main < |m.fibers|
      && f < |m.fibers| && !Fixed(m, f) && m.fibers[f].state != EXEC
    case SwapOut(i, st) =>
      && i < |m.threads| && !Fixed(m, m.threads[i].runs)
      && m.threads[i].current < |m.fibers| && m.threads[i].main < |m.fibers|
      && st in {READY, HOLD, TERM, EXCEPT}
    case Call =>
      && m.caller && |m.threads| > 0 && m.threads[0].runs == m.threads[0].own < |m.fibers|
      && |m.threads| < |m.fibers| && m.fibers[|m.threads|].state == INIT
    case Back(st) =>
      && m.caller && |m.threads| > 0 && m.threads[0].runs == |m.threads|
      && m.threads[0].current < |m.fibers| && m.threads[0].own < |m.fibers|
      && st in {TERM, EXCEPT}
  }

  function Apply(m: Machine, v: Move): Machine
    requires Enabled(m, v)
  {
    match v
    case NewFiber => m.(fibers := m.fibers + [Fiber(INIT, Context(|m.fibers|, None))])
    case Reset(f) => m.(fibers := m.fibers[f := Fiber(INIT, Context(f, None))])
    case SwapIn(i, f) =>
      SwapContext(SetState(SetThis(m, i, f), f, EXEC), i, m.threads[i].main, f, Some(f))
    case SwapOut(i, st) =>
      var cur, main := m.threads[i].current, m.threads[i].main;
      SwapContext(SetThis(SetState(m, cur, st), i, main), i, cur, main, None)
    case Call =>
      var root := |m.threads|;
      SwapContext(SetState(SetThis(m, 0, root), root, EXEC), 0, m.threads[0].own, root, Some(root))
    case Back(st) =>
      var cur, own := m.threads[0].current, m.threads[0].own;
      SwapContext(SetThis(SetState(m, cur, st), 0, own), 0, cur, own, None)
  }

  // The nested machine

  type Stacks = seq<seq<nat>>

  function Nest(a: Stacks, m: Machine, v: Move): Stacks
    requires |a| == |m.threads| && Enabled(m, v)
  {
    match v
    case SwapIn(i, f) => a[i := a[i] + [f]]
    case SwapOut(i, _) => if a[i] == [] then a else a[i := a[i][..|a[i]| - 1]]
    case Call => a[0 := a[0] + [|m.threads|]]
    case Back(_) => if a[0] == [] then a else a[0 := a[0][..|a[0]| - 1]]
    case _ => a
  }

  function Top(st: seq<nat>): nat
    requires st != []
  {
    st[|st| - 1]
  }

  /** Thread `i` is on the top fiber of its stack, knows it, and every fiber below waits for the next. */
  ghost predicate Nested(m: Machine, st: seq<nat>, i: nat)
    requires i < |m.threads|
  {
    && st != [] && st[0] == i
    && (forall k :: 0 <= k < |st| ==> st[k] < |m.fibers|)
    && m.threads[i] == Thread(Top(st), MainOf(m, i), i, Top(st))
    && (|st| == 1 || (MainOf(m, i) == i && |st| == 2) || (MainOf(m, i) != i && |st| <= 3 && st[1] == MainOf(m, i)))
    && (forall k :: 0 <= k < |st| - 1 ==> m.fibers[st[k]].ctx == Context(st[k], Some(st[k + 1])))
    && (!Fixed(m, Top(st)) ==> m.fibers[Top(st)].state == EXEC)
    && (|st| >= 2 && st[|st| - 2] == MainOf(m, i) ==> !Fixed(m, Top(st)))
  }

  ghost predicate Refines(m: Machine, a: Stacks) {
    && |a| == |m.threads| > 0
    && |m.threads| <= |m.fibers| && (m.caller ==> |m.threads| < |m.fibers|)
    && (forall i :: 0 <= i < |a| ==> Nested(m, a[i], i))
    && (forall f :: 0 <= f < |m.fibers| ==> m.fibers[f].ctx.stack == f)
    && (forall i, j :: 0 <= i < j < |a| ==> Top(a[i]) != Top(a[j]))
  }

  lemma {:induction false} LowerAreFixed(m: Machine, st: seq<nat>, i: nat, k: nat)
    requires i < |m.threads| && Nested(m, st, i) && k < |st| - 1
    ensures st[k] == i || st[k] == MainOf(m, i)
  {}

  /** A thread whose own record, and the contexts of its fibers, are left alone. */
  lemma {:induction false} OthersStay(m: Machine, m': Machine, st: seq<nat>, j: nat)
    requires j < |m.threads| == |m'.threads| && m'.caller == m.caller && |m.fibers| <= |m'.fibers|
    requires Nested(m, st, j) && m'.threads[j] == m.threads[j]
    requires m'.fibers[Top(st)].state == m.fibers[Top(st)].state
    requires m'.fibers[j].ctx == m.fibers[j].ctx || Top(st) == j
    requires MainOf(m, j) < |m.fibers| ==>
      m'.fibers[MainOf(m, j)].ctx == m.fibers[MainOf(m, j)].ctx || Top(st) == MainOf(m, j)
    ensures Nested(m', st, j)
  {
    forall k | 0 <= k < |st| - 1 ensures m'.fibers[st[k]].ctx == Context(st[k], Some(st[k + 1])) {
      LowerAreFixed(m, st, j, k);
    }
  }

  lemma {:induction false} SwapInRefines(m: Machine, a: Stacks, i: nat, f: nat)
    requires Refines(m, a) && Enabled(m, SwapIn(i, f))
    ensures Refines(Apply(m, SwapIn(i, f)), Nest(a, m, SwapIn(i, f)))
  {
    var m', a' := Apply(m, SwapIn(i, f)), Nest(a, m, SwapIn(i, f));
    assert Nested(m, a[i], i);
    assert Nested(m', a'[i], i);
    forall j | 0 <= j < |a| && j != i ensures Nested(m', a'[j], j) && Top(a'[j]) != f {
      assert Nested(m, a[j], j);
      OthersStay(m, m', a[j], j);
    }
  }

  lemma {:induction false} SwapOutRefines(m: Machine, a: Stacks, i: nat, st: FiberState)
    requires Refines(m, a) && Enabled(m, SwapOut(i, st))
    ensures Refines(Apply(m, SwapOut(i, st)), Nest(a, m, SwapOut(i, st)))
  {
    var m', a' := Apply(m, SwapOut(i, st)), Nest(a, m, SwapOut(i, st));
    assert Nested(m, a[i], i);
    assert Nested(m', a'[i], i);
    forall j | 0 <= j < |a| && j != i ensures Nested(m', a'[j], j) && Top(a'[j]) != Top(a'[i]) {
      assert Nested(m, a[j], j);
      OthersStay(m, m', a[j], j);
    }
  }

  lemma {:induction false} CallRefines(m: Machine, a: Stacks)
    requires Refines(m, a) && Enabled(m, Call)
    ensures Refines(Apply(m, Call), Nest(a, m, Call))
  {
    var m', a' := Apply(m, Call), Nest(a, m, Call);
    assert Nested(m, a[0], 0);
    assert Nested(m', a'[0], 0);
    forall j | 0 <= j < |a| && j != 0 ensures Nested(m', a'[j], j) && Top(a'[j]) != Top(a'[0]) {
      assert Nested(m, a[j], j);
      OthersStay(m, m', a[j], j);
    }
  }

  lemma {:induction false} BackRefines(m: Machine, a: Stacks, st: FiberState)
    requires Refines(m, a) && Enabled(m, Back(st))
    ensures Refines(Apply(m, Back(st)), Nest(a, m, Back(st)))
  {
    var m', a' := Apply(m, Back(st)), Nest(a, m, Back(st));
    assert Nested(m, a[0], 0);
    assert Nested(m', a'[0], 0);
    forall j | 0 <= j < |a| && j != 0 ensures Nested(m', a'[j], j) && Top(a'[j]) != Top(a'[0]) {
      assert Nested(m, a[j], j);
      OthersStay(m, m', a[j], j);
    }
  }

  lemma {:induction false} NewOrResetRefines(m: Machine, a: Stacks, v: Move)
    requires Refines(m, a) && Enabled(m, v) && (v.NewFiber? || v.Reset?)
    ensures Refines(Apply(m, v), a)
  {
    var m' := Apply(m, v);
    forall j | 0 <= j < |a| ensures Nested(m', a[j], j) {
      assert Nested(m, a[j], j);
      OthersStay(m, m', a[j], j);
    }
  }

  lemma {:induction false} MoveRefines(m: Machine, a: Stacks, v: Move)
    requires Refines(m, a) && Enabled(m, v)
    ensures Refines(Apply(m, v), Nest(a, m, v))
  {
    match v
    case SwapIn(i, f) => SwapInRefines(m, a, i, f);
    case SwapOut(i, st) => SwapOutRefines(m, a, i, st);
    case Call => CallRefines(m, a);
    case Back(st) => BackRefines(m, a, st);
    case NewFiber => NewOrResetRefines(m, a, v);
    case Reset(_) => NewOrResetRefines(m, a, v);
  }

  // Runs

  ghost predicate IsRun(m: Machine, vs: seq<Move>)
    decreases |vs|
  {
    vs == [] || (Enabled(m, vs[0]) && IsRun(Apply(m, vs[0]), vs[1..]))
  }

  function Final(m: Machine, vs: seq<Move>): Machine
    requires IsRun(m, vs)
    decreases |vs|
  {
    if vs == [] then m else Final(Apply(m, vs[0]), vs[1..])
  }

  lemma {:induction false} ThreadsStay(m: Machine, v: Move)
    requires Enabled(m, v)
    ensures |Apply(m, v).threads| == |m.threads|
  {}

  function NestAll(a: Stacks, m: Machine, vs: seq<Move>): Stacks
    requires IsRun(m, vs) && |a| == |m.threads|
    decreases |vs|
  {
    if vs == [] then a
    else
      ThreadsStay(m, vs[0]);
      NestAll(Nest(a, m, vs[0]), Apply(m, vs[0]), vs[1..])
  }

  function Bottoms(n: nat): Stacks { seq(n, i requires 0 <= i < n => [i]) }

  lemma {:induction false} StartRefines(n: nat, caller: bool)
    requires n > 0
    ensures Refines(Start(n, caller), Bottoms(n))
  {}

  lemma {:induction false} RunRefines(m: Machine, a: Stacks, vs: seq<Move>)
    requires Refines(m, a) && IsRun(m, vs)
    ensures Refines(Final(m, vs), NestAll(a, m, vs))
    decreases |vs|
  {
    if vs != [] {
      MoveRefines(m, a, vs[0]);
      RunRefines(Apply(m, vs[0]), Nest(a, m, vs[0]), vs[1..]);
    }
  }

  /** In every interleaving of swaps, yields, calls and returns on any number of threads: each thread runs
      on the fiber its current-fiber record names; that fiber is the top of the thread's nesting, and no
      two threads are on the same one. */
  lemma {:induction false} CurrentIsRunning(n: nat, caller: bool, vs: seq<Move>, i: nat)
    requires n > 0 && i < n && IsRun(Start(n, caller), vs)
    ensures var m, a := Final(Start(n, caller), vs), NestAll(Bottoms(n), Start(n, caller), vs);
      && |m.threads| == n && |a| == n && a[i] != []
      && m.threads[i].current == m.threads[i].runs == Top(a[i])
      && forall j :: 0 <= j < n && j != i ==> m.threads[j].runs != m.threads[i].runs
  {
    StartRefines(n, caller);
    RunRefines(Start(n, caller), Bottoms(n), vs);
    var m, a := Final(Start(n, caller), vs), NestAll(Bottoms(n), Start(n, caller), vs);
    RunThreads(Start(n, caller), vs);
    assert Nested(m, a[i], i);
    forall j | 0 <= j < n && j != i ensures m.threads[j].runs != m.threads[i].runs {
      assert Nested(m, a[j], j) && Top(a[j]) != Top(a[i]);
    }
  }

  lemma {:induction false} RunThreads(m: Machine, vs: seq<Move>)
    requires IsRun(m, vs)
    ensures |Final(m, vs).threads| == |m.threads|
    decreases |vs|
  {
    if vs != [] {
      ThreadsStay(m, vs[0]);
      RunThreads(Apply(m, vs[0]), vs[1..]);
    }
  }

  /** Wherever a task yields or ends, on whichever thread it was resumed, it comes back into the `run` of
      that very thread, at the `swapIn` that is waiting for this fiber; and a root fiber that ends comes
      back into the `stop()` that called it. */
  lemma {:induction false} ReturnsWhereItWasCalled(n: nat, caller: bool, vs: seq<Move>, v: Move)
    requires n > 0 && IsRun(Start(n, caller), vs) && Enabled(Final(Start(n, caller), vs), v)
    ensures var m := Final(Start(n, caller), vs);
      && (v.SwapOut? ==>
            var t := m.threads[v.i];
            && t.runs < |Apply(m, v).fibers|
            && m.fibers[t.main].ctx == Context(t.main, Some(t.runs))
            && Apply(m, v).threads[v.i].runs == Apply(m, v).threads[v.i].current == t.main
            && Apply(m, v).fibers[t.runs].ctx == Context(t.runs, None))
      && (v.Back? ==>
            var t := m.threads[0];
            && m.fibers[t.own].ctx == Context(t.own, Some(t.runs))
            && Apply(m, v).threads[0].runs == Apply(m, v).threads[0].current == t.own)
  {
    StartRefines(n, caller);
    RunRefines(Start(n, caller), Bottoms(n), vs);
    var m, a := Final(Start(n, caller), vs), NestAll(Bottoms(n), Start(n, caller), vs);
    var i := if v.SwapOut? then v.i else 0;
    assert Nested(m, a[i], i);
  }
}
