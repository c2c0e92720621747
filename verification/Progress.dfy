/** What workers can bring about: runs in which a worker gets to its next search, takes a given entry,
    or leaves. They show that the guarantees of `Shutdown` are not empty promises. */
module Progress {
  import opened Scripts
  import opened Seqs
  import opened Protocol
  import opened Invariant
  import opened Ownership
  import opened Shutdown

  // Runs one after the other

  lemma {:induction false} Before(s: State, l: Label, ls: seq<Label>)
    requires Enabled(s, l) && IsRun(Apply(s, l), ls)
    ensures IsRun(s, [l] + ls) && Final(s, [l] + ls) == Final(Apply(s, l), ls)
  {
    assert ([l] + ls)[1..] == ls;
  }

  lemma {:induction false} Join(s: State, a: seq<Label>, b: seq<Label>)
    requires IsRun(s, a) && IsRun(Final(s, a), b)
    ensures IsRun(s, a + b) && Final(s, a + b) == Final(Final(s, a), b)
    decreases |b|
  {
    if b == [] {
      assert a + b == a;
    } else {
      RunExtends(s, a, b[0]);
      Join(s, a + [b[0]], b[1..]);
      assert (a + [b[0]]) + b[1..] == a + b;
    }
  }

  lemma {:induction false} TakenLater(s: State, a: seq<Label>, b: seq<Label>, e: Entry)
    requires IsRun(s, a) && IsRun(Final(s, a), b) && IsRun(s, a + b) && TakenIn(Final(s, a), b, e)
    ensures TakenIn(s, a + b, e)
    decreases |a|
  {
    if a == [] {
      assert a + b == b;
    } else {
      assert (a + b)[1..] == a[1..] + b;
      TakenLater(Apply(s, a[0]), a[1..], b, e);
    }
  }

  // To the next search

  /** The next step towards worker `w`'s next search; the calling thread first has to call `stop()`. */
  function Next(s: State, w: nat): Label
    requires w < |s.workers|
  {
    match s.workers[w].phase
    case Outside =>
      if !s.caller || w > 0 then Begin(w)
      else if !s.autoStop then RequestStop
      else if !s.stopping then FlagStop
      else CallRoot
    case Picked(_) => SwapIn(w)
    case Running(_) => Act(w)
    case Returned(_) => Uncount(w)
    case Uncounted(_) => Settle(w)
    case Empty => EnterIdle(w)
    case InIdle => AskStopping(w)
    case IdleBack => LeaveIdle(w)
    case Scan => Search(w)
    case Exited => Search(w)
  }

  function Rank(s: State, w: nat): nat
    requires w < |s.workers|
  {
    match s.workers[w].phase
    case Outside => 1 + (if s.autoStop then 0 else 1) + (if s.stopping then 0 else 1)
    case Picked(_) => 4
    case Running(_) => 3
    case Returned(_) => 2
    case Uncounted(_) => 1
    case Empty => 3
    case InIdle => 2
    case IdleBack => 1
    case Scan => 0
    case Exited => 0
  }

  function ScriptOf(s: State, w: nat): Script
    requires w < |s.workers|
  {
    var p := s.workers[w].phase;
    if p.Running? && p.task < |s.tasks| then s.tasks[p.task].script else Finish
  }

  /** One such step: the worker gets closer, nobody else moves, and nothing is taken off the list. */
  ghost predicate Advances(s: State, s': State, w: nat)
    requires w < |s.workers|
  {
    && |s'.workers| == |s.workers|
    && s.queue <= s'.queue
    && WillSearch(s', w)
    && s'.caller == s.caller && s'.started == s.started
    && (forall v :: 0 <= v < |s.workers| && v != w ==> s'.workers[v] == s.workers[v])
    && (!(s.caller && w == 0 && s.workers[w].phase == Outside) ==>
          s'.autoStop == s.autoStop && s'.stopping == s.stopping)
    && (s.autoStop ==> s'.autoStop && (s.stopping ==> s'.stopping))
  }

  predicate CanAdvance(s: State, w: nat) {
    && w < |s.workers| && WillSearch(s, w)
    && (s.workers[w].phase == Outside ==> s.queue != [])
  }

  lemma {:induction false} NextEnabled(s: State, w: nat)
    requires Inv(s) && CanAdvance(s, w) && s.workers[w].phase != Scan
    ensures Enabled(s, Next(s, w))
  {
    assert HandOk(s, w);
  }

  lemma {:induction false} ActCloser(s: State, w: nat)
    requires Inv(s) && Enabled(s, Act(w))
    ensures var s' := Apply(s, Act(w));
      |s'.workers| == |s.workers|
      && (s'.workers[w].phase.Returned?
          || (s'.workers[w].phase == s.workers[w].phase && ScriptOf(s', w) < ScriptOf(s, w)))
  {
    ActEffect(s, w);
    var t := s.workers[w].phase.task;
    assert HandOk(s, w);
    match s.tasks[t].script
    case Wake(u, target, rest) =>
      var s1 := SetTask(s, t, s.tasks[t].(script := rest));
      assert IsHeld(s1, u) ==> u != t;
    case _ =>
  }

  predicate Nearer(s: State, s': State, w: nat)
    requires w < |s.workers|
  {
    && |s'.workers| == |s.workers|
    && (s'.workers[w].phase == Outside ==> s.workers[w].phase == Outside)
    && Rank(s', w) < Rank(s, w)
  }

  lemma {:induction false} HandNearer(s: State, l: Label)
    requires Enabled(s, l) && (l.SwapIn? || l.Uncount? || l.Settle?)
    ensures Nearer(s, Apply(s, l), l.w)
  {}

  lemma {:induction false} IdleNearer(s: State, l: Label)
    requires Enabled(s, l) && (l.EnterIdle? || l.AskStopping? || l.LeaveIdle? || l.Begin?)
    requires l.EnterIdle? ==> s.workers[l.w].idleFiber != TERM
    ensures Nearer(s, Apply(s, l), l.w)
  {}

  lemma {:induction false} NextCloser(s: State, w: nat)
    requires Inv(s) && CanAdvance(s, w) && s.workers[w].phase != Scan && Enabled(s, Next(s, w))
    ensures var s' := Apply(s, Next(s, w));
      |s'.workers| == |s.workers|
      && (s'.workers[w].phase == Outside ==> s.workers[w].phase == Outside)
      && (Rank(s', w) < Rank(s, w) || (Rank(s', w) == Rank(s, w) && ScriptOf(s', w) < ScriptOf(s, w)))
  {
    var l := Next(s, w);
    match s.workers[w].phase
    case Outside =>
    case Running(_) => ActCloser(s, w);
    case Picked(_) => HandNearer(s, l);
    case Returned(_) => HandNearer(s, l);
    case Uncounted(_) => HandNearer(s, l);
    case Empty => IdleNearer(s, l);
    case InIdle => IdleNearer(s, l);
    case IdleBack => IdleNearer(s, l);
  }

  lemma {:induction false} NextAdvances(s: State, w: nat)
    requires Inv(s) && CanAdvance(s, w) && s.workers[w].phase != Scan && Enabled(s, Next(s, w))
    ensures Advances(s, Apply(s, Next(s, w)), w)
  {
    var l := Next(s, w);
    ActorMoves(s, l);
    ListEffect(s, l);
    WhenSearchIsLost(s, l, w);
  }

  /** A run made of these steps. */
  ghost predicate OwnRun(s: State, ls: seq<Label>, w: nat)
    decreases |ls|
  {
    ls == [] || (
      && Inv(s) && CanAdvance(s, w) && s.workers[w].phase != Scan
      && ls[0] == Next(s, w) && Enabled(s, ls[0])
      && OwnRun(Apply(s, ls[0]), ls[1..], w))
  }

  lemma {:induction false} AdvancesFurther(s: State, s1: State, s2: State, w: nat)
    requires w < |s.workers| && Advances(s, s1, w) && Advances(s1, s2, w)
    requires s1.workers[w].phase == Outside ==> s.workers[w].phase == Outside
    ensures Advances(s, s2, w)
  {
    assert s1.queue == s.queue + s1.queue[|s.queue|..];
  }

  lemma {:induction false} OwnBefore(s: State, l: Label, rest: seq<Label>, w: nat)
    requires Inv(s) && CanAdvance(s, w) && s.workers[w].phase != Scan && l == Next(s, w) && Enabled(s, l)
    requires Advances(s, Apply(s, l), w) && IsRun(Apply(s, l), rest) && OwnRun(Apply(s, l), rest, w)
    requires Advances(Apply(s, l), Final(Apply(s, l), rest), w)
    requires Apply(s, l).workers[w].phase == Outside ==> s.workers[w].phase == Outside
    ensures var ls := [l] + rest;
      IsRun(s, ls) && OwnRun(s, ls, w) && Final(s, ls) == Final(Apply(s, l), rest) && Advances(s, Final(s, ls), w)
  {
    Before(s, l, rest);
    assert ([l] + rest)[1..] == rest;
    AdvancesFurther(s, Apply(s, l), Final(Apply(s, l), rest), w);
  }

  /** Worker `w` gets to its next search by itself. */
  lemma {:induction false} ToSearch(s: State, w: nat) returns (ls: seq<Label>)
    requires Inv(s) && CanAdvance(s, w)
    ensures IsRun(s, ls) && OwnRun(s, ls, w) && (s.workers[w].phase != Scan ==> ls != [])
    ensures Inv(Final(s, ls)) && Advances(s, Final(s, ls), w)
    ensures Final(s, ls).workers[w].phase == Scan
    decreases Rank(s, w), ScriptOf(s, w)
  {
    ls := [];
    if s.workers[w].phase != Scan {
      var l := Next(s, w);
      NextEnabled(s, w);
      NextCloser(s, w);
      NextAdvances(s, w);
      StepKeepsInv(s, l);
      var rest := ToSearch(Apply(s, l), w);
      ls := [l] + rest;
      OwnBefore(s, l, rest, w);
    }
  }

  /** Nothing happened to other workers or to the tasks in their hands. */
  ghost predicate Aside(s: State, s': State, w: nat) {
    && |s'.workers| == |s.workers| && |s.tasks| <= |s'.tasks|
    && s'.caller == s.caller && s'.started == s.started
    && (s'.autoStop == s.autoStop || (s.caller && w == 0))
    && (forall v :: 0 <= v < |s.workers| && v != w ==> s'.workers[v] == s.workers[v])
    && (forall t :: 0 <= t < |s.tasks| && s.tasks[t].place.InHand? && s.tasks[t].place.worker != w ==>
          s'.tasks[t] == s.tasks[t])
  }

  lemma {:induction false} AsideFurther(s: State, s1: State, s2: State, w: nat)
    requires Aside(s, s1, w) && Aside(s1, s2, w)
    ensures Aside(s, s2, w)
  {}

  lemma {:induction false} StepAside(s: State, l: Label, w: nat)
    requires Inv(s) && Enabled(s, l)
    requires Actor(l) == Some(w) || (s.caller && w == 0 && (l == RequestStop || l == FlagStop))
    ensures Aside(s, Apply(s, l), w)
  {
    var s' := Apply(s, l);
    ActorMoves(s, l);
    forall t | 0 <= t < |s.tasks| && s.tasks[t].place.InHand? && s.tasks[t].place.worker != w
      ensures s'.tasks[t] == s.tasks[t]
    {
      OnlyItsWorker(s, l, t);
    }
  }

  /** All the way through the run, its end excepted, task `t` is not with its owner. */
  ghost predicate Unheld(s: State, ls: seq<Label>, t: nat)
    decreases |ls|
  {
    ls == [] || (
      && t < |s.tasks| && s.tasks[t].place != Held
      && Enabled(s, ls[0]) && Unheld(Apply(s, ls[0]), ls[1..], t))
  }

  lemma {:induction false} UnheldExtends(s: State, ls: seq<Label>, l: Label, t: nat)
    requires IsRun(s, ls) && Unheld(s, ls, t)
    requires var s1 := Final(s, ls); Enabled(s1, l) && t < |s1.tasks| && s1.tasks[t].place != Held
    ensures Unheld(s, ls + [l], t)
    decreases |ls|
  {
    var all := ls + [l];
    if ls == [] {
      assert Unheld(Apply(s, l), all[1..], t);
    } else {
      assert all[1..] == ls[1..] + [l];
      UnheldExtends(Apply(s, ls[0]), ls[1..], l, t);
    }
  }

  lemma {:induction false} UnheldJoin(s: State, a: seq<Label>, b: seq<Label>, t: nat)
    requires IsRun(s, a) && Unheld(s, a, t) && Unheld(Final(s, a), b, t)
    ensures Unheld(s, a + b, t)
    decreases |b|
  {
    if b == [] {
      assert a + b == a;
    } else {
      RunExtends(s, a, b[0]);
      UnheldExtends(s, a, b[0], t);
      UnheldJoin(s, a + [b[0]], b[1..], t);
      assert (a + [b[0]]) + b[1..] == a + b;
    }
  }

  /** Only its place changed, if anything. */
  predicate SameCode(s: State, s': State, t: nat) {
    && t < |s.tasks| && t < |s'.tasks|
    && s'.tasks[t].script == s.tasks[t].script && s'.tasks[t].fiber == s.tasks[t].fiber
  }

  lemma {:induction false} NextPasses(s: State, w: nat, t: nat)
    requires Inv(s) && CanAdvance(s, w) && s.workers[w].phase != Scan && Enabled(s, Next(s, w))
    ensures Aside(s, Apply(s, Next(s, w)), w)
    ensures t < |s.tasks| && s.tasks[t].place == InList ==>
      SameCode(s, Apply(s, Next(s, w)), t) && Apply(s, Next(s, w)).tasks[t].place == InList
  {
    StepAside(s, Next(s, w), w);
    if t < |s.tasks| && s.tasks[t].place == InList {
      OnlyItsWorker(s, Next(s, w), t);
    }
  }

  lemma {:induction false} OwnRunPasses(s: State, ls: seq<Label>, w: nat, t: nat)
    requires IsRun(s, ls) && OwnRun(s, ls, w) && t < |s.tasks| && s.tasks[t].place == InList
    ensures Aside(s, Final(s, ls), w) && Alone(ls, w) && Unheld(s, ls, t)
    ensures SameCode(s, Final(s, ls), t) && Final(s, ls).tasks[t].place == InList
    decreases |ls|
  {
    if ls != [] {
      var s1 := Apply(s, ls[0]);
      NextPasses(s, w, t);
      OwnRunPasses(s1, ls[1..], w, t);
      AsideFurther(s, s1, Final(s1, ls[1..]), w);
    }
  }

  /** Worker `w` moves, the calling thread perhaps calling `stop()` first, and nobody else. */
  predicate Alone(ls: seq<Label>, w: nat) {
    forall k :: 0 <= k < |ls| ==> Actor(ls[k]) == Some(w) || ls[k] == RequestStop || ls[k] == FlagStop
  }

  /** How worker `w` comes to have task `t` in hand. */
  ghost predicate Fetches(s: State, ls: seq<Label>, w: nat, t: nat) {
    && IsRun(s, ls) && Alone(ls, w) && Inv(Final(s, ls)) && Unheld(s, ls, t)
    && Aside(s, Final(s, ls), w) && SameCode(s, Final(s, ls), t)
    && w < |Final(s, ls).workers| && Final(s, ls).workers[w].phase == Picked(t)
  }

  lemma {:induction false} FetchFirst(s: State, w: nat, k: nat, t: nat)
    requires Inv(s) && Enabled(s, Search(w)) && k == FirstFor(s, w, 0) < |s.queue| && s.queue[k].task == t
    ensures Fetches(s, [Search(w)], w, t) && TakenIn(s, [Search(w)], s.queue[k])
  {
    StepAside(s, Search(w), w);
    StepKeepsInv(s, Search(w));
    OnlyItsWorker(s, Search(w), t);
    Before(s, Search(w), []);
    assert [Search(w)] == [Search(w)] + [];
    assert Unheld(Apply(s, Search(w)), [Search(w)][1..], t);
  }

  lemma {:induction false} FetchAfter(s: State, a: seq<Label>, b: seq<Label>, w: nat, t: nat)
    requires IsRun(s, a) && Alone(a, w) && Unheld(s, a, t) && Aside(s, Final(s, a), w) && SameCode(s, Final(s, a), t)
    requires Fetches(Final(s, a), b, w, t)
    ensures Fetches(s, a + b, w, t)
  {
    Join(s, a, b);
    UnheldJoin(s, a, b, t);
    AsideFurther(s, Final(s, a), Final(s, a + b), w);
  }

  /** One search that passes over the entry at `i` and takes an earlier one. */
  lemma {:induction false} PassOver(s: State, i: nat, w: nat)
    requires Inv(s) && Enabled(s, Search(w)) && i < |s.queue| && Entitled(s.queue[i], w) && FirstFor(s, w, 0) < i
    ensures var ls, t := [Search(w)], s.queue[i].task;
      && IsRun(s, ls) && Final(s, ls) == Apply(s, Search(w)) && Unheld(s, ls, t)
      && Aside(s, Final(s, ls), w) && SameCode(s, Final(s, ls), t)
  {
    var t := s.queue[i].task;
    StepAside(s, Search(w), w);
    OnlyItsWorker(s, Search(w), t);
    Before(s, Search(w), []);
    assert [Search(w)] == [Search(w)] + [];
    assert Unheld(Apply(s, Search(w)), [Search(w)][1..], t);
  }

  lemma {:induction false} FetchAfterOther(s: State, i: nat, w: nat, b: seq<Label>)
    requires Inv(s) && Enabled(s, Search(w)) && i < |s.queue| && Entitled(s.queue[i], w) && FirstFor(s, w, 0) < i
    requires Fetches(Apply(s, Search(w)), b, w, s.queue[i].task) && TakenIn(Apply(s, Search(w)), b, s.queue[i])
    ensures Fetches(s, [Search(w)] + b, w, s.queue[i].task) && TakenIn(s, [Search(w)] + b, s.queue[i])
  {
    PassOver(s, i, w);
    FetchAfter(s, [Search(w)], b, w, s.queue[i].task);
    TakenLater(s, [Search(w)], b, s.queue[i]);
  }

  /** Worker `w` takes the entry at `i`, which is meant for it, after at most `i` others. */
  lemma {:induction false} GetTaken(s: State, i: nat, w: nat) returns (ls: seq<Label>)
    requires Inv(s) && i < |s.queue| && Entitled(s.queue[i], w) && w < |s.workers| && WillSearch(s, w)
    ensures Fetches(s, ls, w, s.queue[i].task) && TakenIn(s, ls, s.queue[i])
    decreases i, 1
  {
    var t := s.queue[i].task;
    var a := ToSearch(s, w);
    var s1 := Final(s, a);
    OwnRunPasses(s, a, w, t);
    assert s1.queue[i] == s.queue[i];
    SearchHits(s1, i, w);
    var b := SearchOn(s1, i, w);
    FetchAfter(s, a, b, w, t);
    TakenLater(s, a, b, s.queue[i]);
    ls := a + b;
  }

  lemma {:induction false} SearchOn(s: State, i: nat, w: nat) returns (ls: seq<Label>)
    requires Inv(s) && Enabled(s, Search(w)) && i < |s.queue| && Entitled(s.queue[i], w)
    ensures Fetches(s, ls, w, s.queue[i].task) && TakenIn(s, ls, s.queue[i])
    decreases i, 0
  {
    var t, k, s1 := s.queue[i].task, FirstFor(s, w, 0), Apply(s, Search(w));
    SearchHits(s, i, w);
    StepKeepsInv(s, Search(w));
    if k == i {
      FetchFirst(s, w, k, t);
      ls := [Search(w)];
    } else {
      var b := GetTaken(s1, i - 1, w);
      FetchAfterOther(s, i, w, b);
      ls := [Search(w)] + b;
    }
  }

  lemma {:induction false} SearchStopsBy(s: State, i: nat, w: nat)
    requires Inv(s) && w < |s.workers| && i < |s.queue| && Entitled(s.queue[i], w)
    ensures FirstFor(s, w, 0) <= i && s.queue[FirstFor(s, w, 0)].task < |s.tasks|
  {
    assert TaskOk(s, s.queue[i].task);
    assert MayTake(s, s.queue[i], w);
  }

  lemma {:induction false} TakeShifts(s: State, w: nat, k: nat, i: nat)
    requires w < |s.workers| && k <= i < |s.queue| && s.queue[k].task < |s.tasks|
    ensures var s' := Take(s, w, k);
      && |s'.workers| == |s.workers| && s'.workers[w].phase == Picked(s.queue[k].task)
      && (k < i ==> i - 1 < |s'.queue| && s'.queue[i - 1] == s.queue[i])
  {}

  lemma {:induction false} SearchHits(s: State, i: nat, w: nat)
    requires Inv(s) && Enabled(s, Search(w)) && i < |s.queue| && Entitled(s.queue[i], w)
    ensures var k, s' := FirstFor(s, w, 0), Apply(s, Search(w));
      && k <= i && |s'.workers| == |s.workers| && WillSearch(s', w)
      && s'.workers[w].phase == Picked(s.queue[k].task)
      && (k < i ==> i - 1 < |s'.queue| && s'.queue[i - 1] == s.queue[i])
  {
    SearchStopsBy(s, i, w);
    TakeShifts(s, w, FirstFor(s, w, 0), i);
  }

  // When an entry is taken

  ghost predicate TakenBy(s: State, ls: seq<Label>, e: Entry) { IsRun(s, ls) && TakenIn(s, ls, e) }

  /** An entry can still be taken exactly if some worker it is meant for may search again. */
  lemma {:induction false} TakenIff(s: State, i: nat)
    requires Reachable(s) && i < |s.queue|
    ensures (exists ls :: TakenBy(s, ls, s.queue[i])) <==> !Abandoned(s, s.queue[i])
  {
    ReachableInv(s);
    if !Abandoned(s, s.queue[i]) {
      var w: nat :| Entitled(s.queue[i], w) && MaySearch(s, w);
      var ls := SomeRunTakes(s, i, w);
      assert TakenBy(s, ls, s.queue[i]);
    } else {
      forall ls | IsRun(s, ls) ensures !TakenBy(s, ls, s.queue[i]) {
        AbandonedRun(s, ls, i);
      }
    }
  }

  lemma {:induction false} SomeRunTakes(s: State, i: nat, w: nat) returns (ls: seq<Label>)
    requires Inv(s) && i < |s.queue| && Entitled(s.queue[i], w) && MaySearch(s, w)
    ensures IsRun(s, ls) && TakenIn(s, ls, s.queue[i])
  {
    if WillSearch(s, w) {
      ls := GetTaken(s, i, w);
    } else {
      StepKeepsInv(s, Start);
      var s1 := Apply(s, Start);
      BeforeStop(s1, w);
      var rest := GetTaken(s1, i, w);
      Before(s, Start, rest);
      ls := [Start] + rest;
      assert ls[1..] == rest;
    }
  }

  /** An entry pinned to worker `w` can be taken exactly if `w` may still search; if `w` is bound to, the
      entry is taken before all threads return; and otherwise it stays listed for ever. */
  lemma {:induction false} PinnedTakenIff(s: State, i: nat, w: nat)
    requires Reachable(s) && i < |s.queue| && s.queue[i].pin == On(w)
    ensures (exists ls :: TakenBy(s, ls, s.queue[i])) <==> MaySearch(s, w)
    ensures w < |s.workers| && WillSearch(s, w) ==>
      forall ls :: IsRun(s, ls) && AllExited(Final(s, ls)) ==> TakenIn(s, ls, s.queue[i])
    ensures !MaySearch(s, w) ==> forall ls :: IsRun(s, ls) ==> s.queue[i] in Final(s, ls).queue
  {
    TakenIff(s, i);
    ReachableLive(s);
    forall ls | IsRun(s, ls) && AllExited(Final(s, ls)) && w < |s.workers| && WillSearch(s, w)
      ensures TakenIn(s, ls, s.queue[i])
    {
      TakenBeforeReturn(s, ls, i, w);
    }
    forall ls | IsRun(s, ls) && !MaySearch(s, w) ensures s.queue[i] in Final(s, ls).queue {
      AbandonedRun(s, ls, i);
    }
  }

  /** An unpinned entry can be taken exactly if `stop()` was not called without there being workers; with
      workers, it is taken before all threads return. */
  lemma {:induction false} UnpinnedTakenIff(s: State, i: nat)
    requires Reachable(s) && i < |s.queue| && s.queue[i].pin == Any
    ensures (exists ls :: TakenBy(s, ls, s.queue[i])) <==> !s.autoStop || HasWorkers(s)
    ensures HasWorkers(s) ==>
      forall ls :: IsRun(s, ls) && AllExited(Final(s, ls)) ==> TakenIn(s, ls, s.queue[i])
  {
    TakenIff(s, i);
    ReachableLive(s);
    NoUnpinnedStranded(s);
    if HasWorkers(s) {
      var w :| 0 <= w < |s.workers| && WillSearch(s, w);
      assert Entitled(s.queue[i], w) && MaySearch(s, w);
      forall ls | IsRun(s, ls) && AllExited(Final(s, ls)) ensures TakenIn(s, ls, s.queue[i]) {
        TakenBeforeReturn(s, ls, i, w);
      }
    } else if !s.autoStop {
      assert MaySearch(s, 0) && Entitled(s.queue[i], 0);
    }
  }
}
