/** Which queued entries are still taken after `stop()`, and when a worker may return. */
module Shutdown {
  import opened Scripts
  import opened Seqs
  import opened Protocol
  import opened Invariant
  import opened Ownership

  /** Worker `w` has a thread: `start()` made one for it, or it is the thread that will call `stop()`. */
  predicate HasThread(s: State, w: nat) { s.started || (s.caller && w == 0) }

  /** The worker has at least one search of the list ahead of it, unless it is kept out of `run`
      altogether because everything has stopped. */
  predicate WillSearch(s: State, w: nat)
    requires w < |s.workers|
  {
    var k := s.workers[w];
    && k.phase != Exited
    && !(k.phase == Empty && k.idleFiber == TERM)
    && (k.phase == Outside ==> HasThread(s, w))
  }

  /** As long as neither `start()` nor `stop()` has been called, every worker may still get a thread. */
  predicate MaySearch(s: State, w: nat) {
    w < |s.workers| && (WillSearch(s, w) || (!s.started && !s.autoStop))
  }

  predicate Entitled(e: Entry, w: nat) { e.pin == Any || e.pin == On(w) }

  /** Every thread has returned from `run`, or never had to enter it; this is when `stop()` returns. */
  ghost predicate AllExited(s: State) {
    forall w :: 0 <= w < |s.workers| && HasThread(s, w) ==> s.workers[w].phase == Exited
  }

  /** Only workers with a thread get past the start of `run`. */
  ghost predicate Threaded(s: State) {
    forall w :: 0 <= w < |s.workers| && s.workers[w].phase != Outside ==> HasThread(s, w)
  }

  lemma {:induction false} ThreadedStep(s: State, l: Label)
    requires Threaded(s) && Enabled(s, l)
    ensures Threaded(Apply(s, l))
  {
    ActorMoves(s, l);
    var s' := Apply(s, l);
    forall w | 0 <= w < |s'.workers| && s'.workers[w].phase != Outside ensures HasThread(s', w) {
      if Actor(l) == Some(w) && s.workers[w].phase == Outside {
        assert l == Begin(w) || l == CallRoot;
      }
    }
  }

  lemma {:induction false} HandSearches(s: State, l: Label)
    requires Enabled(s, l) && (l.SwapIn? || l.Uncount? || l.Settle?)
    ensures |Apply(s, l).workers| == |s.workers| && WillSearch(Apply(s, l), l.w)
  {}

  lemma {:induction false} IdleSearches(s: State, l: Label)
    requires Enabled(s, l) && (l.EnterIdle? || l.AskStopping? || l.LeaveIdle?) && WillSearch(s, l.w)
    ensures |Apply(s, l).workers| == |s.workers| && WillSearch(Apply(s, l), l.w)
  {}

  /** The only steps that cost a worker its next search. */
  lemma {:induction false} WhenSearchIsLost(s: State, l: Label, w: nat)
    requires Enabled(s, l) && w < |s.workers| && WillSearch(s, w)
    ensures |Apply(s, l).workers| == |s.workers|
    ensures WillSearch(Apply(s, l), w)
      || (l == Search(w) && FirstFor(s, w, 0) == |s.queue|)
      || (l == CallRoot && s.queue == [])
  {
    ActorMoves(s, l);
    if Actor(l) == Some(w) {
      match l
      case Act(_) => ActEffect(s, w);
      case SwapIn(_) => HandSearches(s, l);
      case Uncount(_) => HandSearches(s, l);
      case Settle(_) => HandSearches(s, l);
      case EnterIdle(_) => IdleSearches(s, l);
      case AskStopping(_) => IdleSearches(s, l);
      case LeaveIdle(_) => IdleSearches(s, l);
      case _ =>
    }
  }

  /** While an entry it may take stays queued, a worker keeps its next search. */
  lemma {:induction false} KeepsItsSearch(s: State, l: Label, i: nat, w: nat)
    requires Inv(s) && Enabled(s, l)
    requires i < |s.queue| && Entitled(s.queue[i], w)
    requires w < |s.workers| && WillSearch(s, w)
    ensures |Apply(s, l).workers| == |s.workers| && WillSearch(Apply(s, l), w)
  {
    WhenSearchIsLost(s, l, w);
    assert TaskOk(s, s.queue[i].task);
    assert MayTake(s, s.queue[i], w);
  }

  ghost predicate Unpinned(s: State) {
    exists i :: 0 <= i < |s.queue| && s.queue[i].pin == Any
  }

  ghost predicate SomeSearch(s: State) {
    exists w :: 0 <= w < |s.workers| && WillSearch(s, w)
  }

  lemma {:induction false} BeforeStop(s: State, w: nat)
    requires Inv(s) && !s.autoStop && w < |s.workers| && HasThread(s, w)
    ensures WillSearch(s, w)
  {
    assert FlagsOk(s, w);
  }

  /** An entry listed after a step was listed before, at `i`, or is new: submitted from outside, or
      pushed by a worker. */
  lemma {:induction false} WhereFrom(s: State, l: Label, j: nat) returns (i: Option<nat>)
    requires Enabled(s, l) && j < |Apply(s, l).queue|
    ensures i.Some? ==> i.value < |s.queue| && s.queue[i.value] == Apply(s, l).queue[j]
    ensures i == None ==> Pushes(s, Apply(s, l)) && j == |s.queue| && MayPush(l)
  {
    if l.Search? {
      i := Some(if FirstFor(s, l.w, 0) <= j then if FirstFor(s, l.w, 0) < |s.queue| then j + 1 else j else j);
    } else {
      ListEffect(s, l);
      i := if j < |s.queue| then Some(j) else None;
    }
  }

  lemma {:induction false} PusherSearches(s: State, l: Label)
    requires Enabled(s, l) && (l.Act? || l.Settle?)
    ensures SomeSearch(Apply(s, l))
  {
    if l.Act? {
      ActEffect(s, l.w);
    }
    assert WillSearch(Apply(s, l), l.w);
  }

  /** Some worker has a thread. */
  predicate HasWorkers(s: State) { s.started || s.caller }

  /** The search survives a step while an unpinned entry stays listed, or comes with a new one. */
  lemma {:induction false} SearchForEntry(s: State, l: Label, i: nat)
    requires Inv(s) && Enabled(s, l) && SomeSearch(s)
    requires i < |s.queue| && s.queue[i].pin == Any
    ensures SomeSearch(Apply(s, l))
  {
    var w :| 0 <= w < |s.workers| && WillSearch(s, w);
    KeepsItsSearch(s, l, i, w);
  }

  lemma {:induction false} SearchBeforeStop(s: State)
    requires Inv(s) && HasWorkers(s) && !s.autoStop
    ensures SomeSearch(s)
  {
    BeforeStop(s, 0);
  }

  ghost predicate Served(s: State) { Unpinned(s) && HasWorkers(s) ==> SomeSearch(s) }

  lemma {:induction false} LiveStep(s: State, l: Label)
    requires Inv(s) && Enabled(s, l) && Served(s)
    ensures Served(Apply(s, l))
  {
    var s' := Apply(s, l);
    StepKeepsInv(s, l);
    ActorMoves(s, l);
    if Unpinned(s') && HasWorkers(s') {
      var j :| 0 <= j < |s'.queue| && s'.queue[j].pin == Any;
      var i := WhereFrom(s, l, j);
      if !s'.autoStop {
        SearchBeforeStop(s');
      } else if i.Some? {
        SearchForEntry(s, l, i.value);
      } else {
        PusherSearches(s, l);
      }
    }
  }

  lemma {:induction false} LiveRun(s: State, ls: seq<Label>)
    requires Inv(s) && IsRun(s, ls) && Served(s) && Threaded(s)
    ensures Served(Final(s, ls)) && Threaded(Final(s, ls))
    decreases |ls|
  {
    if ls != [] {
      LiveStep(s, ls[0]);
      ThreadedStep(s, ls[0]);
      StepKeepsInv(s, ls[0]);
      LiveRun(Apply(s, ls[0]), ls[1..]);
    }
  }

  lemma {:induction false} ReachableLive(s: State)
    requires Reachable(s)
    ensures Inv(s) && Served(s) && Threaded(s)
  {
    var n: nat, caller: bool, ls: seq<Label> :|
      n > 0 && IsRun(Init(n, caller), ls) && s == Final(Init(n, caller), ls);
    InitKeepsInv(n, caller);
    LiveRun(Init(n, caller), ls);
    ReachableInv(s);
  }

  /** In every state of every interleaving, an unpinned queued entry has a worker that will search
      again exactly when there are workers at all; so once all threads have returned no unpinned entry
      is left, although `active` drops before a READY fiber is requeued. The one exception is `stop()`
      without `start()` and without the calling thread as a worker. */
  lemma {:induction false} NoUnpinnedStranded(s: State)
    requires Reachable(s) && Unpinned(s)
    ensures SomeSearch(s) <==> HasWorkers(s)
    ensures AllExited(s) ==> !HasWorkers(s)
  {
    ReachableLive(s);
  }

  // What becomes of a listed entry

  /** Step `l` takes the entry `e` off the list. */
  predicate Takes(s: State, l: Label, e: Entry)
    requires Enabled(s, l)
  {
    l.Search? && FirstFor(s, l.w, 0) < |s.queue| && s.queue[FirstFor(s, l.w, 0)] == e
  }

  ghost predicate TakenIn(s: State, ls: seq<Label>, e: Entry)
    requires IsRun(s, ls)
    decreases |ls|
  {
    ls != [] && (Takes(s, ls[0], e) || TakenIn(Apply(s, ls[0]), ls[1..], e))
  }

  lemma {:induction false} StaysListed(s: State, l: Label, i: nat) returns (j: nat)
    requires Enabled(s, l) && i < |s.queue| && !Takes(s, l, s.queue[i])
    ensures j < |Apply(s, l).queue| && Apply(s, l).queue[j] == s.queue[i]
    ensures j == i || (j == i - 1 && l.Search?)
    ensures l.Search? && FirstFor(s, l.w, 0) < i ==> j == i - 1
  {
    j := i;
    if l.Search? {
      if FirstFor(s, l.w, 0) < i {
        j := i - 1;
      }
    } else {
      ListEffect(s, l);
    }
  }

  lemma {:induction false} TakenBeforeReturn(s: State, ls: seq<Label>, i: nat, w: nat)
    requires Inv(s) && Threaded(s) && IsRun(s, ls) && AllExited(Final(s, ls))
    requires i < |s.queue| && Entitled(s.queue[i], w)
    requires w < |s.workers| && WillSearch(s, w)
    ensures TakenIn(s, ls, s.queue[i])
    decreases |ls|
  {
    if ls != [] && !Takes(s, ls[0], s.queue[i]) {
      var s1 := Apply(s, ls[0]);
      KeepsItsSearch(s, ls[0], i, w);
      StepKeepsInv(s, ls[0]);
      ThreadedStep(s, ls[0]);
      var j := StaysListed(s, ls[0], i);
      TakenBeforeReturn(s1, ls[1..], j, w);
    }
  }

  lemma {:induction false} NoSearchRegained(s: State, l: Label, w: nat)
    requires Enabled(s, l) && !MaySearch(s, w)
    ensures !MaySearch(Apply(s, l), w)
  {
    ActorMoves(s, l);
    if l == Act(w) {
      ActEffect(s, w);
    }
  }

  /** No worker that the entry is meant for will ever search again. */
  ghost predicate Abandoned(s: State, e: Entry) {
    forall w: nat :: Entitled(e, w) ==> !MaySearch(s, w)
  }

  /** An abandoned entry stays listed, and its presence keeps every worker that has not seen the end
      from seeing it. */
  lemma {:induction false} AbandonedStep(s: State, l: Label, i: nat) returns (j: nat)
    requires Enabled(s, l) && i < |s.queue| && Abandoned(s, s.queue[i])
    ensures !Takes(s, l, s.queue[i])
    ensures j < |Apply(s, l).queue| && Apply(s, l).queue[j] == s.queue[i] && Abandoned(Apply(s, l), s.queue[i])
    ensures |Apply(s, l).workers| == |s.workers|
    ensures forall v :: 0 <= v < |s.workers| && !Finished(s.workers[v]) ==> !Finished(Apply(s, l).workers[v])
  {
    var e := s.queue[i];
    assert l.Search? ==> MaySearch(s, l.w);
    j := StaysListed(s, l, i);
    ActorMoves(s, l);
    forall w: nat | Entitled(e, w) ensures !MaySearch(Apply(s, l), w) {
      NoSearchRegained(s, l, w);
    }
    forall v | 0 <= v < |s.workers| && !Finished(s.workers[v]) ensures !Finished(Apply(s, l).workers[v]) {
      FinishStep(s, l, v);
    }
  }

  lemma {:induction false} AbandonedRun(s: State, ls: seq<Label>, i: nat)
    requires IsRun(s, ls) && i < |s.queue| && Abandoned(s, s.queue[i])
    ensures !TakenIn(s, ls, s.queue[i]) && s.queue[i] in Final(s, ls).queue
    ensures |Final(s, ls).workers| == |s.workers|
    ensures forall v :: 0 <= v < |s.workers| && !Finished(s.workers[v]) ==> !Finished(Final(s, ls).workers[v])
    decreases |ls|
  {
    if ls != [] {
      var j := AbandonedStep(s, ls[0], i);
      AbandonedRun(Apply(s, ls[0]), ls[1..], j);
    }
  }

  /** While an entry is listed that nobody will take, no thread that has not yet seen `stopping()` ever
      returns, whatever happens: `stop()` hangs in `join`. */
  lemma {:induction false} StopHangs(s: State, ls: seq<Label>, i: nat, v: nat)
    requires IsRun(s, ls) && i < |s.queue| && Abandoned(s, s.queue[i])
    requires v < |s.workers| && HasThread(s, v) && !Finished(s.workers[v])
    ensures !AllExited(Final(s, ls))
  {
    AbandonedRun(s, ls, i);
    ThreadStays(s, ls, v);
    assert !Finished(Final(s, ls).workers[v]);
  }

  lemma {:induction false} ThreadStays(s: State, ls: seq<Label>, v: nat)
    requires IsRun(s, ls) && HasThread(s, v)
    ensures HasThread(Final(s, ls), v)
    decreases |ls|
  {
    if ls != [] {
      ActorMoves(s, ls[0]);
      ThreadStays(Apply(s, ls[0]), ls[1..], v);
    }
  }

  lemma {:induction false} NoThreadAfterStop(s: State, ls: seq<Label>, w: nat)
    requires IsRun(s, ls) && s.autoStop && !HasThread(s, w)
    ensures !HasThread(Final(s, ls), w)
    decreases |ls|
  {
    if ls != [] {
      ActorMoves(s, ls[0]);
      NoThreadAfterStop(Apply(s, ls[0]), ls[1..], w);
    }
  }

  lemma {:induction false} StillWaiting(s: State, l: Label, w: nat)
    requires Inv(s) && Threaded(s) && Enabled(s, l) && MaySearch(s, w) && !HasThread(s, w) && !s.autoStop
    ensures var s1 := Apply(s, l);
      && Inv(s1) && Threaded(s1)
      && (if s1.autoStop then !HasThread(s1, w) else MaySearch(s1, w))
  {
    var s1 := Apply(s, l);
    StepKeepsInv(s, l);
    ThreadedStep(s, l);
    ActorMoves(s, l);
    if s1.started {
      BeforeStop(s1, w);
    }
  }

  /** As `TakenBeforeReturn`, for a worker that may still be waiting for `start()`. */
  lemma {:induction false} TakenOnceStarted(s: State, ls: seq<Label>, i: nat, w: nat)
    requires Inv(s) && Threaded(s) && IsRun(s, ls) && AllExited(Final(s, ls)) && HasThread(Final(s, ls), w)
    requires i < |s.queue| && Entitled(s.queue[i], w) && MaySearch(s, w)
    ensures TakenIn(s, ls, s.queue[i])
    decreases |ls|
  {
    if WillSearch(s, w) {
      TakenBeforeReturn(s, ls, i, w);
    } else if HasThread(s, w) {
      BeforeStop(s, w);
    } else if ls != [] && !Takes(s, ls[0], s.queue[i]) {
      var s1 := Apply(s, ls[0]);
      StillWaiting(s, ls[0], w);
      var j := StaysListed(s, ls[0], i);
      if s1.autoStop {
        NoThreadAfterStop(s1, ls[1..], w);
      } else {
        TakenOnceStarted(s1, ls[1..], j, w);
      }
    }
  }

  /** An entry pinned to `w` is pushed before `stop()` is called, by anyone, or at any time by a task running
      on `w` itself: it is taken before all threads return, provided that `w` is ever given a thread. */
  lemma {:induction false} SafePins(s: State, l: Label, w: nat, ls: seq<Label>)
    requires Reachable(s) && Enabled(s, l) && w < |s.workers|
    requires Pushes(s, Apply(s, l)) && Apply(s, l).queue[|s.queue|].pin == On(w)
    requires IsRun(Apply(s, l), ls) && AllExited(Final(Apply(s, l), ls))
    requires (!s.autoStop && HasThread(Final(Apply(s, l), ls), w)) || l == Act(w)
    ensures TakenIn(Apply(s, l), ls, Apply(s, l).queue[|s.queue|])
  {
    var s' := Apply(s, l);
    ReachableStep(s, l);
    ReachableLive(s');
    ActorMoves(s, l);
    if l == Act(w) {
      ActEffect(s, w);
      TakenBeforeReturn(s', ls, |s.queue|, w);
    } else {
      if HasThread(s', w) {
        BeforeStop(s', w);
      }
      TakenOnceStarted(s', ls, |s.queue|, w);
    }
  }

  // Returning from `run`

  /** Somewhere in the run the idle fiber of `w` asked `stopping()` and got true, or `stop()` itself
      did and never entered `run` on the calling thread. */
  ghost predicate SawStopping(s: State, ls: seq<Label>, w: nat)
    requires IsRun(s, ls)
  {
    exists k :: 0 <= k < |ls| && StopSeenAt(s, ls, k, w)
  }

  ghost predicate StopSeenAt(s: State, ls: seq<Label>, k: nat, w: nat)
    requires IsRun(s, ls) && k < |ls|
  {
    Stopping(At(s, ls, k)) && (ls[k] == AskStopping(w) || (ls[k] == CallRoot && w == 0))
  }

  predicate Finished(k: Worker) { k.phase == Exited || k.idleFiber == TERM }

  lemma {:induction false} FinishStep(s: State, l: Label, w: nat)
    requires Enabled(s, l) && w < |s.workers| && !Finished(s.workers[w])
    ensures |Apply(s, l).workers| == |s.workers|
    ensures Finished(Apply(s, l).workers[w]) ==> Stopping(s) && (l == AskStopping(w) || (l == CallRoot && w == 0))
  {
    ActorMoves(s, l);
    if l == Act(w) {
      ActEffect(s, w);
    }
  }

  lemma {:induction false} FinishRun(s: State, ls: seq<Label>, w: nat)
    requires IsRun(s, ls) && w < |s.workers| && !Finished(s.workers[w])
    ensures |Final(s, ls).workers| == |s.workers|
    ensures Finished(Final(s, ls).workers[w]) ==> SawStopping(s, ls, w)
    decreases |ls|
  {
    if ls != [] {
      var s1 := Apply(s, ls[0]);
      FinishStep(s, ls[0], w);
      if Finished(s1.workers[w]) {
        assert StopSeenAt(s, ls, 0, w);
        WorkersFixed(s1, ls[1..]);
      } else {
        FinishRun(s1, ls[1..], w);
        if SawStopping(s1, ls[1..], w) {
          var k :| 0 <= k < |ls[1..]| && StopSeenAt(s1, ls[1..], k, w);
          assert StopSeenAt(s, ls, k + 1, w);
        }
      }
    }
  }

  lemma {:induction false} WorkersFixed(s: State, ls: seq<Label>)
    requires IsRun(s, ls)
    ensures |Final(s, ls).workers| == |s.workers|
    decreases |ls|
  {
    if ls != [] {
      ActorMoves(s, ls[0]);
      WorkersFixed(Apply(s, ls[0]), ls[1..]);
    }
  }

  /** No worker returns before `stop()`; each return follows an instant at which both flags were set,
      the list was empty and no worker was active, seen by that worker's own idle fiber (or by `stop()`
      for the calling thread). No task is recorded in the hand of a worker that has returned. */
  lemma {:induction false} ReturnsAreJustified(n: nat, caller: bool, ls: seq<Label>, w: nat)
    requires n > 0 && w < n && IsRun(Init(n, caller), ls)
    ensures var s := Final(Init(n, caller), ls);
      && |s.workers| == n
      && (s.workers[w].phase == Exited ==>
            && s.autoStop && s.stopping
            && SawStopping(Init(n, caller), ls, w)
            && forall t :: 0 <= t < |s.tasks| ==> s.tasks[t].place != InHand(w))
  {
    FinishRun(Init(n, caller), ls, w);
    InitKeepsInv(n, caller);
    RunKeepsInv(Init(n, caller), ls, |ls|);
    var s := Final(Init(n, caller), ls);
    assert FlagsOk(s, w);
    forall t | 0 <= t < |s.tasks| && s.workers[w].phase == Exited ensures s.tasks[t].place != InHand(w) {
      assert TaskOk(s, t);
    }
  }
}
