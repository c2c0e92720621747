/** The other half of `Affinity`: whenever a task yields READY, some run takes it off its worker. */
module Straying {
  import opened Scripts
  import opened Seqs
  import opened Protocol
  import opened Invariant
  import opened Ownership
  import opened Shutdown
  import opened Progress
  import opened Affinity

  function HoldCount(script: Script): nat {
    match script
    case Finish => 0
    case Throw => 0
    case YieldReady(rest) => HoldCount(rest)
    case YieldHold(rest) => 1 + HoldCount(rest)
    case Spawn(_, _, _, rest) => HoldCount(rest)
    case Wake(_, _, rest) => HoldCount(rest)
  }

  // Up to the next yield

  /** Worker `w` has run task `t` to a yield. */
  ghost predicate Yielded(s: State, s': State, w: nat, t: nat)
    requires t < |s.tasks|
  {
    && Inv(s') && Aside(s, s', w) && t < |s'.tasks|
    && w < |s'.workers| && s'.workers[w].phase == Returned(t)
    && Remains(s.tasks[t].script, s'.tasks[t])
  }

  /** What is left of a task after a yield. */
  predicate Remains(script: Script, x: Task) {
    x.fiber == Some(READY)
    || (&& x.fiber == Some(HOLD)
        && HoldCount(x.script) < HoldCount(script) && (YieldsReady(script) ==> YieldsReady(x.script)))
  }

  lemma {:induction false} ActToYield(s: State, w: nat, t: nat)
    requires Inv(s) && Enabled(s, Act(w)) && s.workers[w].phase == Running(t) && Yields(s.tasks[t].script)
    ensures var s' := Apply(s, Act(w));
      && w < |s'.workers| && t < |s'.tasks|
      && (if s'.workers[w].phase == Running(t) then GoesOn(s.tasks[t].script, s'.tasks[t].script)
          else s'.workers[w].phase == Returned(t) && Remains(s.tasks[t].script, s'.tasks[t]))
  {
    ActOnOwn(s, w, t);
    match s.tasks[t].script
    case Wake(u, _, _) => assert HandOk(s, w) && s.tasks[t].place != Held;
    case _ =>
  }

  ghost predicate GoesOn(script: Script, rest: Script) {
    && rest < script
    && Yields(rest) && HoldCount(rest) == HoldCount(script) && YieldsReady(rest) == YieldsReady(script)
  }

  lemma {:induction false} OneUnheld(s: State, l: Label, t: nat)
    requires Enabled(s, l) && t < |s.tasks| && s.tasks[t].place != Held
    ensures IsRun(s, [l]) && Final(s, [l]) == Apply(s, l) && Unheld(s, [l], t)
  {
    Before(s, l, []);
    assert [l] == [l] + [];
    assert Unheld(Apply(s, l), [l][1..], t);
  }

  lemma {:induction false} ToYield(s: State, w: nat, t: nat) returns (ls: seq<Label>)
    requires Inv(s) && w < |s.workers| && t < |s.tasks| && s.workers[w].phase == Running(t) && Yields(s.tasks[t].script)
    ensures IsRun(s, ls) && Unheld(s, ls, t) && Yielded(s, Final(s, ls), w, t)
    decreases s.tasks[t].script
  {
    var l := Act(w);
    var s1 := Apply(s, l);
    assert HandOk(s, w);
    OneUnheld(s, l, t);
    StepKeepsInv(s, l);
    StepAside(s, l, w);
    ActToYield(s, w, t);
    ls := [l];
    if s1.workers[w].phase == Running(t) {
      var rest := ToYield(s1, w, t);
      Join(s, ls, rest);
      UnheldJoin(s, ls, rest, t);
      ls := ls + rest;
      AsideFurther(s, s1, Final(s, ls), w);
    }
  }

  // Back on the list, or with its owner

  predicate LastIs(s: State, t: nat, pin: Pin) { s.queue != [] && s.queue[|s.queue| - 1] == Entry(t, pin) }

  /** The task has yielded once: it is the last entry, unpinned, or its owner has it. */
  ghost predicate PutAway(s: State, s': State, w: nat, t: nat)
    requires t < |s.tasks|
  {
    && Inv(s') && Aside(s, s', w) && t < |s'.tasks|
    && w < |s'.workers| && s'.workers[w].phase == Scan
    && (|| LastIs(s', t, Any)
        || (s'.tasks[t].place == Held && Remains(s.tasks[t].script, s'.tasks[t]) && s'.tasks[t].fiber == Some(HOLD)))
  }

  lemma {:induction false} SettlesDown(s: State, w: nat, t: nat)
    requires Inv(s) && w < |s.workers| && s.workers[w].phase == Uncounted(t) && t < |s.tasks|
    requires s.tasks[t].fiber == Some(READY) || s.tasks[t].fiber == Some(HOLD)
    ensures var s' := DoSettle(s, w, t);
      && w < |s'.workers| && s'.workers[w].phase == Scan && t < |s'.tasks|
      && s'.tasks[t].script == s.tasks[t].script && s'.tasks[t].fiber == s.tasks[t].fiber
      && (if s.tasks[t].fiber == Some(READY) then LastIs(s', t, Any)
          else s'.tasks[t].place == Held)
  {}

  lemma {:induction false} AfterYield(s: State, w: nat, t: nat) returns (ls: seq<Label>)
    requires Inv(s) && w < |s.workers| && t < |s.tasks| && s.workers[w].phase == Returned(t)
    requires s.tasks[t].fiber == Some(READY) || s.tasks[t].fiber == Some(HOLD)
    ensures IsRun(s, ls) && Unheld(s, ls, t) && Inv(Final(s, ls)) && Aside(s, Final(s, ls), w)
    ensures var s' := Final(s, ls);
      && w < |s'.workers| && s'.workers[w].phase == Scan && SameCode(s, s', t)
      && (if s.tasks[t].fiber == Some(READY) then LastIs(s', t, Any)
          else s'.tasks[t].place == Held)
  {
    var s1 := Apply(s, Uncount(w));
    assert HandOk(s, w);
    OneUnheld(s, Uncount(w), t);
    StepAside(s, Uncount(w), w);
    StepKeepsInv(s, Uncount(w));
    assert s1.tasks == s.tasks && s1.workers[w].phase == Uncounted(t);
    OneUnheld(s1, Settle(w), t);
    StepAside(s1, Settle(w), w);
    StepKeepsInv(s1, Settle(w));
    SettlesDown(s1, w, t);
    Join(s, [Uncount(w)], [Settle(w)]);
    UnheldJoin(s, [Uncount(w)], [Settle(w)], t);
    AsideFurther(s, s1, Apply(s1, Settle(w)), w);
    ls := [Uncount(w)] + [Settle(w)];
  }

  lemma {:induction false} MountPicked(s: State, w: nat, t: nat)
    requires Inv(s) && w < |s.workers| && s.workers[w].phase == Picked(t)
    ensures t < |s.tasks| && Enabled(s, SwapIn(w))
    ensures IsRun(s, [SwapIn(w)]) && Unheld(s, [SwapIn(w)], t) && Final(s, [SwapIn(w)]) == Apply(s, SwapIn(w))
    ensures var s' := Apply(s, SwapIn(w));
      && Inv(s') && Aside(s, s', w)
      && w < |s'.workers| && s'.workers[w].phase == Running(t)
      && t < |s'.tasks| && s'.tasks[t].script == s.tasks[t].script
  {
    assert HandOk(s, w);
    OneUnheld(s, SwapIn(w), t);
    StepAside(s, SwapIn(w), w);
    StepKeepsInv(s, SwapIn(w));
  }

  /** From the swap in through one yield. */
  lemma {:induction false} RunToStop(s: State, w: nat, t: nat) returns (ls: seq<Label>)
    requires Inv(s) && w < |s.workers| && t < |s.tasks| && s.workers[w].phase == Running(t) && Yields(s.tasks[t].script)
    ensures IsRun(s, ls) && Unheld(s, ls, t) && PutAway(s, Final(s, ls), w, t)
  {
    var a := ToYield(s, w, t);
    var s1 := Final(s, a);
    var b := AfterYield(s1, w, t);
    Link(s, a, b, w, t);
    ls := a + b;
  }

  /** From the list through one yield. */
  lemma {:induction false} ToStop(s: State, i: nat, w: nat) returns (ls: seq<Label>)
    requires Inv(s) && i < |s.queue| && Entitled(s.queue[i], w) && w < |s.workers| && WillSearch(s, w)
    requires s.queue[i].task < |s.tasks| && Yields(s.tasks[s.queue[i].task].script)
    ensures IsRun(s, ls) && Unheld(s, ls, s.queue[i].task) && PutAway(s, Final(s, ls), w, s.queue[i].task)
  {
    var t := s.queue[i].task;
    var a := GetTaken(s, i, w);
    var s1 := Final(s, a);
    MountPicked(s1, w, t);
    var b := RunToStop(Apply(s1, SwapIn(w)), w, t);
    Link(s1, [SwapIn(w)], b, w, t);
    Link(s, a, [SwapIn(w)] + b, w, t);
    ls := a + ([SwapIn(w)] + b);
  }

  lemma {:induction false} Link(s: State, a: seq<Label>, b: seq<Label>, w: nat, t: nat)
    requires IsRun(s, a) && Unheld(s, a, t) && Aside(s, Final(s, a), w)
    requires IsRun(Final(s, a), b) && Unheld(Final(s, a), b, t) && Aside(Final(s, a), Final(Final(s, a), b), w)
    ensures IsRun(s, a + b) && Final(s, a + b) == Final(Final(s, a), b)
    ensures Unheld(s, a + b, t) && Aside(s, Final(s, a + b), w)
  {
    Join(s, a, b);
    UnheldJoin(s, a, b, t);
    AsideFurther(s, Final(s, a), Final(s, a + b), w);
  }

  // Waking the task again

  function WakeMany(t: nat, target: Target, n: nat): Script {
    if n == 0 then Finish else Wake(t, target, WakeMany(t, target, n - 1))
  }

  /** Someone can wake task `t` with `target` at least `n` more times while `w` alone runs it: callers from
      outside, as long as nobody has to call `stop()`, or a task `h` that another worker `v` is running. */
  ghost predicate Waker(s: State, t: nat, target: Target, n: nat, w: nat, v: nat, h: nat) {
    || (!s.autoStop && !(s.caller && w == 0))
    || (&& v != w && v < |s.workers| && s.workers[v].phase == Running(h)
        && h < |s.tasks| && s.tasks[h].place == InHand(v)
        && exists m: nat :: m >= n && s.tasks[h].script == WakeMany(t, target, m))
  }

  lemma {:induction false} WakerStays(s: State, s': State, t: nat, target: Target, n: nat, w: nat, v: nat, h: nat)
    requires Waker(s, t, target, n, w, v, h) && Aside(s, s', w)
    ensures Waker(s', t, target, n, w, v, h)
  {}

  /** The step that wakes it. */
  lemma {:induction false} WakeIt(s: State, t: nat, target: Target, n: nat, w: nat, v: nat, h: nat) returns (l: Label)
    requires Inv(s) && IsHeld(s, t) && n > 0 && Waker(s, t, target, n, w, v, h)
    requires target == OnThread(w) || target == AnyThread
    requires v < |s.workers| && v != w < |s.workers| && s.workers[w].phase == Scan && WillSearch(s, v)
    ensures Enabled(s, l) && Inv(Apply(s, l))
    ensures var s' := Apply(s, l);
      && LastIs(s', t, Resolve(target, w)) && SameCode(s, s', t)
      && |s'.workers| == |s.workers| && s'.workers[w].phase == Scan && WillSearch(s', v)
      && Waker(s', t, target, n - 1, w, v, h)
  {
    if !s.autoStop && !(s.caller && w == 0) {
      l := SubmitHeld(t, Resolve(target, w));
    } else {
      l := Act(v);
      var m: nat :| m >= n && s.tasks[h].script == WakeMany(t, target, m);
      assert s.tasks[h].script == Wake(t, target, WakeMany(t, target, m - 1));
      assert Resolve(target, v) == Resolve(target, w);
      ActWakes(s, t, target, WakeMany(t, target, m - 1), v, h);
    }
    StepKeepsInv(s, l);
  }

  lemma {:induction false} ActWakes(s: State, t: nat, target: Target, rest: Script, v: nat, h: nat)
    requires Inv(s) && IsHeld(s, t) && v < |s.workers| && s.workers[v].phase == Running(h)
    requires h < |s.tasks| && s.tasks[h].place == InHand(v) && s.tasks[h].script == Wake(t, target, rest)
    ensures Enabled(s, Act(v))
    ensures var s' := Apply(s, Act(v));
      && s'.queue == s.queue + [Entry(t, Resolve(target, v))] && SameCode(s, s', t)
      && s'.workers == s.workers && h < |s'.tasks| && s'.tasks[h] == s.tasks[h].(script := rest)
      && s'.started == s.started && s'.caller == s.caller
  {}

  lemma {:induction false} UnheldRuns(s: State, a: seq<Label>, b: seq<Label>, t: nat)
    requires IsRun(s, a) && Unheld(s, a, t) && IsRun(Final(s, a), b) && Unheld(Final(s, a), b, t)
    ensures IsRun(s, a + b) && Unheld(s, a + b, t) && Final(s, a + b) == Final(Final(s, a), b)
  {
    Join(s, a, b);
    UnheldJoin(s, a, b, t);
  }

  // Off its worker

  lemma {:induction false} RunOnExtends(s: State, ls: seq<Label>, l: Label, t: nat, w: nat)
    requires IsRun(s, ls) && IsRunOn(s, ls, t, w) && Enabled(Final(s, ls), l) && WakesOn(Final(s, ls), l, t, w)
    ensures IsRunOn(s, ls + [l], t, w)
    decreases |ls|
  {
    var all := ls + [l];
    if ls == [] {
      assert IsRunOn(Apply(s, l), all[1..], t, w);
    } else {
      assert all[1..] == ls[1..] + [l];
      RunOnExtends(Apply(s, ls[0]), ls[1..], l, t, w);
    }
  }

  lemma {:induction false} RunOnJoin(s: State, a: seq<Label>, b: seq<Label>, t: nat, w: nat)
    requires IsRun(s, a) && IsRunOn(s, a, t, w) && IsRunOn(Final(s, a), b, t, w)
    ensures IsRunOn(s, a + b, t, w)
    decreases |b|
  {
    if b == [] {
      assert a + b == a;
    } else {
      RunExtends(s, a, b[0]);
      RunOnExtends(s, a, b[0], t, w);
      RunOnJoin(s, a + [b[0]], b[1..], t, w);
      assert (a + [b[0]]) + b[1..] == a + b;
    }
  }

  lemma {:induction false} UnheldIsRunOn(s: State, ls: seq<Label>, t: nat, w: nat)
    requires Unheld(s, ls, t)
    ensures IsRunOn(s, ls, t, w)
    decreases |ls|
  {
    if ls != [] {
      UnheldIsRunOn(Apply(s, ls[0]), ls[1..], t, w);
    }
  }

  lemma {:induction false} ReadyIsAYield(script: Script)
    requires YieldsReady(script)
    ensures Yields(script)
  {
    match script
    case Spawn(_, _, _, rest) => ReadyIsAYield(rest);
    case Wake(_, _, rest) => ReadyIsAYield(rest);
    case _ =>
  }

  /** Worker `v` has task `t` at the end of a run that wakes it on `w` only. */
  ghost predicate Leaves(s: State, ls: seq<Label>, t: nat, w: nat, v: nat) {
    IsRunOn(s, ls, t, w) && Strays(s, ls, t, v)
  }

  ghost predicate Strays(s: State, ls: seq<Label>, t: nat, v: nat) {
    IsRun(s, ls) && v < |Final(s, ls).workers| && Holds(Final(s, ls).workers[v], t)
  }

  /** The other worker takes the task that was put back unpinned. */
  lemma {:induction false} TakenOver(s: State, a: seq<Label>, t: nat, w: nat, v: nat) returns (ls: seq<Label>)
    requires IsRun(s, a) && IsRunOn(s, a, t, w)
    requires var s1 := Final(s, a);
      && Inv(s1) && v < |s1.workers| && WillSearch(s1, v)
      && LastIs(s1, t, Any)
    ensures Leaves(s, ls, t, w, v)
  {
    var s1 := Final(s, a);
    var b := GetTaken(s1, |s1.queue| - 1, v);
    UnheldIsRunOn(s1, b, t, w);
    RunOnJoin(s, a, b, t, w);
    Join(s, a, b);
    ls := a + b;
  }

  lemma {:induction false} LeavesLater(s: State, a: seq<Label>, l: Label, c: seq<Label>, t: nat, w: nat, v: nat)
    requires IsRun(s, a) && IsRunOn(s, a, t, w) && Enabled(Final(s, a), l) && WakesOn(Final(s, a), l, t, w)
    requires Leaves(Apply(Final(s, a), l), c, t, w, v)
    ensures Leaves(s, a + ([l] + c), t, w, v)
  {
    var s1 := Final(s, a);
    Before(s1, l, c);
    assert ([l] + c)[1..] == c;
    RunOnJoin(s, a, [l] + c, t, w);
    Join(s, a, [l] + c);
  }

  /** The entry at `i` is for `w`, whose task will yield READY; `v` is another worker. */
  ghost predicate Poised(s: State, i: nat, w: nat, v: nat, h: nat) {
    && Inv(s) && i < |s.queue| && s.queue[i].pin == On(w)
    && w < |s.workers| && WillSearch(s, w) && v < |s.workers| && WillSearch(s, v) && v != w
    && var t := s.queue[i].task;
    && t < |s.tasks| && YieldsReady(s.tasks[t].script)
    && Waker(s, t, OnThread(w), HoldCount(s.tasks[t].script), w, v, h)
  }

  /** Held in between, the task is woken on `w` again, with fewer holds ahead of it. */
  lemma {:induction false} WakeAgain(s: State, t: nat, w: nat, v: nat, h: nat, n: nat) returns (l: Label)
    requires Inv(s) && IsHeld(s, t) && YieldsReady(s.tasks[t].script) && HoldCount(s.tasks[t].script) < n
    requires Waker(s, t, OnThread(w), n, w, v, h)
    requires v < |s.workers| && v != w < |s.workers| && s.workers[w].phase == Scan && WillSearch(s, v)
    ensures Enabled(s, l) && WakesOn(s, l, t, w)
    ensures var s' := Apply(s, l);
      && s'.queue != [] && s'.queue[|s'.queue| - 1].task == t
      && Poised(s', |s'.queue| - 1, w, v, h) && HoldCount(s'.tasks[t].script) < n
  {
    l := WakeIt(s, t, OnThread(w), n, w, v, h);
    var s' := Apply(s, l);
    WakerForLess(s', t, OnThread(w), n - 1, HoldCount(s'.tasks[t].script), w, v, h);
  }

  /** Where the task is after the yield. */
  ghost predicate AtRest(s: State, t: nat, target: Target, n: nat, w: nat, v: nat, h: nat) {
    && Inv(s) && v < |s.workers| && v != w < |s.workers| && s.workers[w].phase == Scan && WillSearch(s, v)
    && Waker(s, t, target, n, w, v, h)
    && (LastIs(s, t, Any) || IsHeld(s, t))
  }

  lemma {:induction false} ComesToRest(s: State, s1: State, t: nat, target: Target, n: nat, w: nat, v: nat, h: nat)
    requires t < |s.tasks| && PutAway(s, s1, w, t) && Waker(s, t, target, n, w, v, h)
    requires v < |s.workers| && v != w && WillSearch(s, v)
    ensures AtRest(s1, t, target, n, w, v, h)
  {
    WakerStays(s, s1, t, target, n, w, v, h);
  }

  lemma {:induction false} FirstLeg(s: State, i: nat, w: nat, v: nat, h: nat) returns (ls: seq<Label>)
    requires Poised(s, i, w, v, h)
    ensures IsRun(s, ls) && IsRunOn(s, ls, s.queue[i].task, w)
    ensures var t, s1 := s.queue[i].task, Final(s, ls);
      var script := s.tasks[t].script;
      && AtRest(s1, t, OnThread(w), HoldCount(script), w, v, h)
      && (!LastIs(s1, t, Any) ==>
            YieldsReady(s1.tasks[t].script) && HoldCount(s1.tasks[t].script) < HoldCount(script))
  {
    var t := s.queue[i].task;
    ReadyIsAYield(s.tasks[t].script);
    ls := ToStop(s, i, w);
    UnheldIsRunOn(s, ls, t, w);
    ComesToRest(s, Final(s, ls), t, OnThread(w), HoldCount(s.tasks[t].script), w, v, h);
  }

  /** Task `t`, listed for `w` and woken on `w` only, ends up with `v`. */
  lemma {:induction false} Escape(s: State, i: nat, w: nat, v: nat, h: nat) returns (ls: seq<Label>)
    requires Poised(s, i, w, v, h)
    ensures Leaves(s, ls, s.queue[i].task, w, v)
    decreases HoldCount(s.tasks[s.queue[i].task].script)
  {
    var t := s.queue[i].task;
    var a := FirstLeg(s, i, w, v, h);
    var s1 := Final(s, a);
    if LastIs(s1, t, Any) {
      ls := TakenOver(s, a, t, w, v);
    } else {
      var l := WakeAgain(s1, t, w, v, h, HoldCount(s.tasks[t].script));
      var s2 := Apply(s1, l);
      var j := |s2.queue| - 1;
      assert s2.queue[j].task == t && Poised(s2, j, w, v, h);
      var c := Escape(s2, j, w, v, h);
      LeavesLater(s, a, l, c, t, w, v);
      ls := a + ([l] + c);
    }
  }

  lemma {:induction false} WakerForLess(s: State, t: nat, target: Target, n: nat, k: nat, w: nat, v: nat, h: nat)
    requires Waker(s, t, target, n, w, v, h) && k <= n
    ensures Waker(s, t, target, k, w, v, h)
  {}

  lemma {:induction false} StraysLater(s: State, a: seq<Label>, b: seq<Label>, t: nat, v: nat)
    requires IsRun(s, a) && Strays(Final(s, a), b, t, v)
    ensures Strays(s, a + b, t, v)
  {
    Join(s, a, b);
  }

  /** Woken without a pin, the task gets away at its first yield of any kind. */
  lemma {:induction false} EscapeAwake(s: State, i: nat, w: nat, v: nat, h: nat) returns (ls: seq<Label>)
    requires Inv(s) && i < |s.queue| && s.queue[i].pin == On(w)
    requires w < |s.workers| && WillSearch(s, w) && v < |s.workers| && WillSearch(s, v) && v != w
    requires var t := s.queue[i].task;
      && t < |s.tasks| && Yields(s.tasks[t].script) && Waker(s, t, AnyThread, 1, w, v, h)
    ensures Strays(s, ls, s.queue[i].task, v)
  {
    var t := s.queue[i].task;
    var a := ToStop(s, i, w);
    var s1 := Final(s, a);
    ComesToRest(s, s1, t, AnyThread, 1, w, v, h);
    var b := FromRest(s1, t, w, v, h);
    StraysLater(s, a, b, t, v);
    ls := a + b;
  }

  lemma {:induction false} FromRest(s: State, t: nat, w: nat, v: nat, h: nat) returns (ls: seq<Label>)
    requires AtRest(s, t, AnyThread, 1, w, v, h)
    ensures Strays(s, ls, t, v)
  {
    var a := WakeIfHeld(s, t, w, v, h);
    var s1 := Final(s, a);
    var b := GetTaken(s1, |s1.queue| - 1, v);
    StraysLater(s, a, b, t, v);
    ls := a + b;
  }

  lemma {:induction false} WakeIfHeld(s: State, t: nat, w: nat, v: nat, h: nat) returns (ls: seq<Label>)
    requires AtRest(s, t, AnyThread, 1, w, v, h)
    ensures IsRun(s, ls) && Inv(Final(s, ls))
    ensures var s' := Final(s, ls);
      LastIs(s', t, Any) && v < |s'.workers| && WillSearch(s', v)
  {
    ls := [];
    if !LastIs(s, t, Any) {
      var l := WakeIt(s, t, AnyThread, 1, w, v, h);
      Before(s, l, []);
      ls := [l] + [];
    }
  }

  // Who wakes it

  lemma {:induction false} OtherLeavesItListed(s: State, l: Label, v: nat, t: nat, w: nat)
    requires Inv(s) && Enabled(s, l) && Inv(Apply(s, l))
    requires (Actor(l) == Some(v) || l == RequestStop || l == FlagStop) && v != w
    requires t < |s.tasks| && s.tasks[t].place == InList && ListedOnlyOn(s, t, w)
    ensures var s' := Apply(s, l);
      SameCode(s, s', t) && s'.tasks[t].place == InList && ListedOnlyOn(s', t, w)
  {
    OnlyItsWorker(s, l, t);
    ListedStaysBound(s, l, t, w);
    if l.Search? {
      TakenByItsWorker(s, v, t, w);
    }
  }

  /** While another worker moves alone, an entry for `w` stays where it is. */
  lemma {:induction false} OthersLeaveItListed(s: State, ls: seq<Label>, v: nat, t: nat, w: nat)
    requires Inv(s) && IsRun(s, ls) && Alone(ls, v) && v != w
    requires t < |s.tasks| && s.tasks[t].place == InList && ListedOnlyOn(s, t, w)
    ensures Unheld(s, ls, t) && SameCode(s, Final(s, ls), t)
    ensures Final(s, ls).tasks[t].place == InList && ListedOnlyOn(Final(s, ls), t, w)
    decreases |ls|
  {
    if ls != [] {
      var s1, rest := Apply(s, ls[0]), ls[1..];
      StepKeepsInv(s, ls[0]);
      OtherLeavesItListed(s, ls[0], v, t, w);
      assert Alone(rest, v);
      OthersLeaveItListed(s1, rest, v, t, w);
      assert Final(s, ls) == Final(s1, rest);
    }
  }

  /** A run that leaves task `t` listed for `w` and brings about someone who can wake it. */
  ghost predicate Readies(s: State, ls: seq<Label>, t: nat, target: Target, n: nat, w: nat, v: nat, h: nat) {
    && IsRun(s, ls) && Unheld(s, ls, t) && SameCode(s, Final(s, ls), t)
    && var s1 := Final(s, ls);
    && Inv(s1) && InQueue(s1, t) && ListedOnlyOn(s1, t, w)
    && w < |s1.workers| && WillSearch(s1, w) && v < |s1.workers| && WillSearch(s1, v) && v != w
    && Waker(s1, t, target, n, w, v, h)
  }

  lemma {:induction false} ReadiesLater(s: State, a: seq<Label>, b: seq<Label>,
                                         t: nat, target: Target, n: nat, w: nat, v: nat, h: nat)
    requires IsRun(s, a) && Unheld(s, a, t) && SameCode(s, Final(s, a), t)
    requires Readies(Final(s, a), b, t, target, n, w, v, h)
    ensures Readies(s, a + b, t, target, n, w, v, h)
  {
    UnheldRuns(s, a, b, t);
  }

  lemma {:induction false} FindWaker(s: State, t: nat, target: Target, n: nat, w: nat)
    returns (ls: seq<Label>, v: nat, h: nat)
    requires Inv(s) && s.started && !s.autoStop && w < |s.workers| && |s.workers| >= 2
    requires t < |s.tasks| && s.tasks[t].place == InList && ListedOnlyOn(s, t, w)
    ensures Readies(s, ls, t, target, n, w, v, h)
  {
    v := if w == 0 then 1 else 0;
    BeforeStop(s, v);
    BeforeStop(s, w);
    assert TaskOk(s, t);
    if s.caller && w == 0 {
      ls, h := HireWaker(s, t, target, n);
    } else {
      ls, h := [], 0;
    }
  }

  /** The calling thread runs only inside `stop()`, when nobody outside schedules any more: worker 1 is
      given a task that does the waking. */
  lemma {:induction false} HireWaker(s: State, t: nat, target: Target, n: nat) returns (ls: seq<Label>, h: nat)
    requires Inv(s) && s.started && !s.autoStop && s.caller && |s.workers| >= 2
    requires t < |s.tasks| && s.tasks[t].place == InList && ListedOnlyOn(s, t, 0)
    ensures Readies(s, ls, t, target, n, 0, 1, h)
  {
    h := |s.tasks|;
    var l := Submit(WakeMany(t, target, n), true, On(1));
    var s1 := Apply(s, l);
    StepKeepsInv(s, l);
    OneUnheld(s, l, t);
    BeforeStop(s1, 0);
    BeforeStop(s1, 1);
    var a := GetTaken(s1, |s.queue|, 1);
    var s2 := Final(s1, a);
    OthersLeaveItListed(s1, a, 1, t, 0);
    var b := MountWaker(s2, t, target, n, h);
    ReadiesLater(s1, a, b, t, target, n, 0, 1, h);
    ReadiesLater(s, [l], a + b, t, target, n, 0, 1, h);
    ls := [l] + (a + b);
  }

  lemma {:induction false} MountWaker(s: State, t: nat, target: Target, n: nat, h: nat) returns (ls: seq<Label>)
    requires Inv(s) && s.started && s.caller && |s.workers| >= 2 && WillSearch(s, 0)
    requires s.workers[1].phase == Picked(h) && h < |s.tasks| && s.tasks[h].script == WakeMany(t, target, n)
    requires t < |s.tasks| && s.tasks[t].place == InList && ListedOnlyOn(s, t, 0)
    ensures Readies(s, ls, t, target, n, 0, 1, h)
  {
    MountPicked(s, 1, h);
    var s' := Apply(s, SwapIn(1));
    OneUnheld(s, SwapIn(1), t);
    OtherLeavesItListed(s, SwapIn(1), 1, t, 0);
    assert TaskOk(s', t) && HandOk(s', 1);
    ls := [SwapIn(1)];
  }

  // The exact condition

  /** A task is submitted for worker `w` before `stop()`, with other workers beside it. Woken on `w` only, it
      can come to another worker exactly if it yields READY somewhere; woken in any way, exactly
      if it yields at all. */
  lemma {:induction false} PinLastsIff(s: State, script: Script, asCallback: bool, w: nat)
    requires Reachable(s) && !s.autoStop && w < |s.workers| && |s.workers| >= 2
    ensures var s1, t := Apply(s, Submit(script, asCallback, On(w))), |s.tasks|;
      && ((exists ls, v: nat :: v != w && Leaves(s1, ls, t, w, v)) <==> YieldsReady(script))
      && ((exists ls, v: nat :: v != w && Strays(s1, ls, t, v)) <==> Yields(script))
  {
    var s1, t := Apply(s, Submit(script, asCallback, On(w))), |s.tasks|;
    ReachableInv(s);
    StepKeepsInv(s, Submit(script, asCallback, On(w)));
    NewlyListed(s, script, asCallback, w);
    if YieldsReady(script) {
      var ls, v := SomeRunLeaves(s1, t, w);
    } else {
      forall ls, v: nat | Leaves(s1, ls, t, w, v) ensures v == w {
        RunStaysBound(s1, ls, t, w);
        assert HandOk(Final(s1, ls), v);
      }
    }
    if Yields(script) {
      var ls, v := SomeRunStrays(s1, t, w);
    } else {
      if YieldsReady(script) {
        ReadyIsAYield(script);
      }
      forall ls, v: nat | Strays(s1, ls, t, v) ensures v == w {
        RunOfOneSegment(s1, ls, t, w);
        RunStaysBound(s1, ls, t, w);
        assert HandOk(Final(s1, ls), v);
      }
    }
  }

  lemma {:induction false} NewlyListed(s: State, script: Script, asCallback: bool, w: nat)
    requires Inv(s)
    ensures var s1, t := NewTask(s, script, asCallback, On(w)), |s.tasks|;
      && t < |s1.tasks| && s1.tasks[t].script == script && s1.tasks[t].place == InList && ListedOnlyOn(s1, t, w)
      && s1.tasks[t].fiber != Some(READY) && s1.tasks[t].fiber != Some(HOLD)
  {}

  /** A run that gets the scheduler started, if it is not. */
  lemma {:induction false} GetStarted(s: State, t: nat, w: nat) returns (ls: seq<Label>)
    requires Inv(s) && !s.autoStop && t < |s.tasks| && s.tasks[t].place == InList && ListedOnlyOn(s, t, w)
    ensures IsRun(s, ls) && Unheld(s, ls, t) && SameCode(s, Final(s, ls), t)
    ensures var s1 := Final(s, ls);
      && Inv(s1) && s1.started && !s1.autoStop && |s1.workers| == |s.workers|
      && s1.tasks[t].place == InList && ListedOnlyOn(s1, t, w)
  {
    ls := [];
    if !s.started {
      OneUnheld(s, Start, t);
      StepKeepsInv(s, Start);
      ls := [Start];
    }
  }

  lemma {:induction false} SomeRunLeaves(s: State, t: nat, w: nat) returns (ls: seq<Label>, v: nat)
    requires Inv(s) && !s.autoStop && w < |s.workers| && |s.workers| >= 2
    requires t < |s.tasks| && s.tasks[t].place == InList && ListedOnlyOn(s, t, w) && YieldsReady(s.tasks[t].script)
    ensures v != w && Leaves(s, ls, t, w, v)
  {
    var a := GetStarted(s, t, w);
    var s1 := Final(s, a);
    var b, h;
    b, v, h := FindWaker(s1, t, OnThread(w), HoldCount(s1.tasks[t].script), w);
    var s2 := Final(s1, b);
    var i :| 0 <= i < |s2.queue| && s2.queue[i].task == t;
    var c := Escape(s2, i, w, v, h);
    LeavesAfter(s1, b, c, t, w, v);
    LeavesAfter(s, a, b + c, t, w, v);
    ls := a + (b + c);
  }

  lemma {:induction false} LeavesAfter(s: State, a: seq<Label>, b: seq<Label>, t: nat, w: nat, v: nat)
    requires IsRun(s, a) && Unheld(s, a, t) && Leaves(Final(s, a), b, t, w, v)
    ensures Leaves(s, a + b, t, w, v)
  {
    UnheldIsRunOn(s, a, t, w);
    RunOnJoin(s, a, b, t, w);
    StraysLater(s, a, b, t, v);
  }

  lemma {:induction false} SomeRunStrays(s: State, t: nat, w: nat) returns (ls: seq<Label>, v: nat)
    requires Inv(s) && !s.autoStop && w < |s.workers| && |s.workers| >= 2
    requires t < |s.tasks| && s.tasks[t].place == InList && ListedOnlyOn(s, t, w) && Yields(s.tasks[t].script)
    ensures v != w && Strays(s, ls, t, v)
  {
    var a := GetStarted(s, t, w);
    var s1 := Final(s, a);
    var b, h;
    b, v, h := FindWaker(s1, t, AnyThread, 1, w);
    var s2 := Final(s1, b);
    var i :| 0 <= i < |s2.queue| && s2.queue[i].task == t;
    var c := EscapeAwake(s2, i, w, v, h);
    StraysLater(s1, b, c, t, v);
    StraysLater(s, a, b + c, t, v);
    ls := a + (b + c);
  }
}
