# Verification of a fiber scheduler, its log formatter and its configuration

The project models the core of a small C++ server framework and proves properties of it:

* **The N:M fiber scheduler.** Worker threads run `Scheduler::run` over one shared list of fibers and
  callbacks, some pinned to a thread. `Protocol.dfy` is a step relation over any number of workers in which
  every block under the mutex, every atomic counter update and every stretch of thread-local code is one
  step; `Invariant.dfy` is its inductive invariant; `Ownership.dfy`, `Shutdown.dfy` and `Dispatch.dfy` state
  what follows for every interleaving. `Progress.dfy` and `Completion.dfy` build the runs that show when an
  entry is still taken and that `stop()` can complete; `Work.dfy` bounds the steps that are not idling;
  `Affinity.dfy` and `Straying.dfy` say when a task stays on the worker it was pinned to; `Scheduling.dfy`
  says of single steps what they list, for whom, and how tasks end; `Stranding.dfy` and `Misuse.dfy` hold
  the runs that go wrong.
* **The scheduler on one thread.** `SingleWorker.dfy` keeps the fields and loops of the source for
  `Scheduler(1, true)`, where `stop()` runs everything on the calling thread, and proves them against the
  round-robin interpreter of `RoundRobin.dfy`; `RoundRobinOrder.dfy` proves that it is one.
* **Control transfers.** `FiberControl.dfy` has the thread-local records and the saved contexts of
  `swapIn`, `swapOut`, `call` and `back`, and proves that they behave like one stack of fibers per thread;
  `FiberStates.dfy` adds what state each fiber is left in and who may resume it.
* **The log pattern compiler.** `LogFormatter.dfy` is the nested index scanner of `LogFormatter::init`,
  proved against the recursive tokenizer of `Patterns.dfy`; `PatternGrammar.dfy` says which patterns are
  accepted and how compiling and printing undo each other, `PatternLaws.dfy` what becomes of single
  directives and of the patterns that are not.
* **Loggers and configuration.** `Loggers.dfy` (formatter inheritance), `LogReload.dfy` and
  `LogHistory.dfy` (the listener that applies a changed `logs` configuration, once and any number of
  times), `ConfigTree.dfy`, `ConfigPaths.dfy` and `ConfigLoad.dfy` (flattening a YAML tree and loading it into
  variables).

`Seqs.dfy` and `Scripts.dfy` hold sums and filters over sequences and the description of a task's behaviour.
A task is a finite script: it schedules new tasks, wakes held ones, yields READY or HOLD, returns or throws.

## Assumptions

* A lock guard unlocks once. The guard of `components/thread.h:50-52` unlocks again in its destructor after
  an explicit `unlock()` (`components/scheduler.cpp:79`); the intended guard is modelled.
* A yield's state write and its context swap are one step (`components/fiber.cpp:159-169`).
* `schedule(f)` is called only for a fiber that its owner holds, or for a new one. The test at
  `components/scheduler.cpp:193` is always true and filters nothing; `Ownership.ScheduleSafeIff` shows that
  for accepted tasks this assumption is exactly what the invariant needs, and `Misuse` what happens otherwise, for
  a fiber that is listed, picked up, running, stopped in a worker's hand, or ended.
* A fiber that yields HOLD has an owner beside the scheduler.
* One start/stop cycle; once `stop()` has been called only running tasks schedule work.
* `std::set<LogDefine>` is a map from names to definitions, since its order looks at names only; the order
  in which the listener walks it is left arbitrary.
* A `LogFormatter` does not change after construction, so a pointer to one stands for its pattern.
* `isalpha` and `tolower` are those of the "C" locale.

## Where the code differs from what its comments say

* `%%` is announced as an escape (`components/log.cpp:396`), but the branch that appends the `%` does not
  skip the directive, so the pattern always ends in an error (`PatternGrammar.DoublePercentFails`,
  `PatternLaws.DoublePercentItems`).
* An unclosed brace puts the error item before the text that precedes it and reads on after the `%`
  (`PatternGrammar.UnclosedBrace`).
* A READY fiber is requeued without its pin (`components/scheduler.cpp:199`), so a pinned task can change
  threads (`Affinity.PinIsLost`); `Straying.PinLastsIff` says exactly which tasks can.
* An entry pinned to a worker that has searched for the last time is never taken, and `stop()` may then
  never return (`Stranding.PinOutlivesWorker`, `Shutdown.StopHangs`); `Progress.PinnedTakenIff` says exactly when an entry is taken.
* `stop()` without `start()` leaves entries behind unless the calling thread is a worker
  (`Stranding.StopWithoutStart`, `Progress.UnpinnedTakenIff`).
* A definition that is carried over unchanged makes the reload listener follow a null pointer
  (`components/log.cpp:636-649`); `LogReload.LoggerManager.Reload` answers false exactly there and for an
  appender of unknown kind.
* An appender that is detached and attached again keeps the formatter it inherited before
  (`Loggers.ReattachedIsStale`); `Loggers.AddKeepsInheritanceIff` says exactly when attaching is safe.

## Model

| member | source | states |
|---|---|---|
| Protocol.FirstFor | components/scheduler.cpp:162-186 | the search takes the first entry that is unpinned or pinned to the searching thread and whose fiber is not executing, and passes over every earlier one |
| Protocol.ActEffect | components/scheduler.h:75-84 | what a running task does leaves the list alone or pushes one entry at the back; flags and other workers stay, and its own worker moves only when the task stops |
| Protocol.ActorMoves | components/scheduler.cpp:145-243 | a step changes the record of no worker but the one that makes it; the flags are moved only by `start()` and `stop()`; no accepted task is forgotten |
| Protocol.ListEffect | components/scheduler.h:37-48 | apart from searches, steps leave the list alone or push one entry at the back, and then they are schedule calls or requeues |
| Scheduling.TaskSchedulesFor | components/scheduler.h:37-48 | a task on worker w that calls `schedule` lists one entry, for the new task or for the held one, which a worker v may take exactly if the target is any thread, or the own thread and v is w, or thread v; a callback comes without a fiber, a fiber in INIT |
| Scheduling.OutsideSchedulesFor | components/scheduler.h:75-84 | a call from outside lists one entry for its task, which exactly the workers named by its pin may take |
| Scheduling.WakesNobody | components/scheduler.h:37-48 | a call for a task that is not held, which its owner does not make, changes nothing else |
| Scheduling.FirstTakenByItsThread | components/scheduler.cpp:164-185 | in every run a task scheduled for the own thread, or for a thread by name, is first taken by that thread's worker |
| Scheduling.StopsAsItsCodeSays | components/fiber.cpp:159-199 | yielding leaves the fiber READY or HOLD with the rest of its code to run, returning leaves it in TERM, throwing in EXCEPT |
| Scheduling.EndsAndFlags | components/scheduler.cpp:66-106 | in every reachable state a fiber is in TERM only if its code returned and in EXCEPT only if it threw; `m_stopping` is set before `start()` and not again before `stop()` |
| Scheduling.StopEntersRunIff | components/scheduler.cpp:115-128 | `stop()` on the calling thread enters `run` unless the list is empty and no worker is active |
| Scheduling.SpareServesCallbacks | components/scheduler.cpp:206-224 | a callback runs on the spare fiber, which the worker keeps, reset, if the callback ended and gives away if it yielded; fibers leave the spare alone |
| Invariant.InitKeepsInv | components/scheduler.cpp:20-47 | a new scheduler with at least one worker satisfies the invariant |
| Invariant.SearchKeeps | components/scheduler.cpp:158-186 | the locked search keeps the invariant: every task in one place with a matching fiber state, counters exact, local fibers usable |
| Invariant.SwapInKeeps | components/scheduler.cpp:192-213 | swapping a fiber in, or mounting a callback on the spare fiber, keeps the invariant |
| Invariant.ActKeeps | components/fiber.cpp:159-199 | yielding, returning, throwing and scheduling from inside a task keep the invariant |
| Invariant.SettleKeeps | components/scheduler.cpp:198-224 | requeueing, dropping or leaving a fiber to its owner, after the decrement, keeps the invariant |
| Invariant.IdleKeeps | components/scheduler.cpp:230-240 | the idle branch, including the test of `stopping()`, keeps the invariant |
| Invariant.StepKeepsInv | components/scheduler.cpp:145-243 | every step of every worker, and every call from outside, keeps the invariant |
| Ownership.AssertionsNeverFire | components/fiber.cpp:85-132 | in every reachable state no step violates an assertion of `swapIn`, `reset` or a local fiber's destructor, and no ended fiber is resumed |
| Ownership.LocalFibersAtRest | components/scheduler.cpp:154-242 | outside a dispatch the callback fiber is null or INIT and the idle fiber INIT, HOLD or TERM; a worker thread returns with its idle fiber in TERM |
| Ownership.OnePlace | components/scheduler.cpp:162-224 | each accepted task is listed once, or in one worker's hand, or else held in HOLD or ended; never two of these, never lost |
| Ownership.OnlyItsWorker | components/scheduler.cpp:162-224 | nobody changes the code or the state of a task's fiber but the worker that has it in hand; others can only move it from the list into their hand, or from its owner onto the list |
| Ownership.ExecMeansOneRunner | components/fiber.cpp:123-132 | a task's fiber is EXEC if and only if some worker is inside `swapIn` with it, and only one is |
| Ownership.CountersCount | components/scheduler.cpp:180-241 | the active counter equals the workers between pick and decrement, the idle counter those inside the idle swap; together at most the workers, and never below zero |
| Ownership.StoppingMeansQuiet | components/scheduler.cpp:256-259 | when `stopping()` is true no task runs, and any task neither ended nor held is READY in the hand of a worker about to requeue it |
| Ownership.ScheduleSafeIff | components/scheduler.cpp:192-193 | scheduling the fiber of an accepted task keeps the invariant if and only if the fiber is in HOLD, not listed and in no worker's hand |
| Misuse.HoldIsNotEnough | components/fiber.cpp:165-169 | a fiber in HOLD may still be in the hand of the worker it yielded to |
| Misuse.EndedIsResumed | components/scheduler.cpp:192-195 | scheduling an ended fiber, unless it was a callback's spare and has been reset, makes a worker resume it past its end, into the assertion there |
| Misuse.PickedTwiceFails | components/fiber.cpp:123-127 | scheduling a fiber another worker has picked up lets a second one pick it up, and the later `swapIn` fails its assertion |
| Misuse.ListedTwiceFails | components/scheduler.cpp:164-185 | scheduling a fiber that is listed lets two workers take its two entries, and the later `swapIn` fails its assertion |
| Misuse.YieldedIsShared | components/scheduler.cpp:198-203 | scheduling a fiber that has yielded and that its worker has not put down yet lets another worker run it, and the first then marks it HOLD while it runs |
| Misuse.RunningIsShared | components/scheduler.cpp:174-178 | a fiber scheduled while it runs is passed over until it stops; then it is shared like one that has yielded, or, if it ends there, resumed past its end |
| Shutdown.WhenSearchIsLost | components/scheduler.cpp:225-241 | a worker with a thread loses its next search only by an empty search after its idle fiber has ended, or by never entering `run` with an empty list |
| Shutdown.KeepsItsSearch | components/scheduler.cpp:158-241 | while an entry a worker may take is listed, no step of anyone costs that worker its next search |
| Shutdown.NoUnpinnedStranded | components/scheduler.cpp:158-241 | in every interleaving an unpinned listed entry has a worker that will search again if and only if there are workers at all, started or the calling thread; so with workers none is left when all threads have returned |
| Shutdown.SafePins | components/scheduler.h:37-48 | an entry pinned to a worker before `stop()`, by whatever call, or at any time by a task running on that worker, is taken before all threads return, if the worker is ever given a thread |
| Shutdown.AbandonedRun | components/scheduler.cpp:164-185 | an entry none of whose workers will search again is never taken in any run, and while it is listed no thread that has not seen `stopping()` ever sees it |
| Shutdown.StopHangs | components/scheduler.cpp:136-138 | with such an entry listed and a thread that has not seen `stopping()`, no run gets all threads to return, so `stop()` waits in `join` for ever |
| Shutdown.ReturnsAreJustified | components/scheduler.cpp:87-107 | a worker returns only after `stop()`, with no task recorded in its hand, and after its own idle fiber (or `stop()` on the calling thread) saw both flags set, the list empty and no worker active |
| Progress.GetTaken | components/scheduler.cpp:158-241 | a worker with a search ahead of it can by itself get to take any listed entry meant for it |
| Progress.TakenIff | components/scheduler.cpp:164-185 | a listed entry is taken in some continuation if and only if some worker it is meant for may search again |
| Progress.PinnedTakenIff | components/scheduler.cpp:164-185 | an entry pinned to a worker can be taken if and only if that worker may search again; if it is bound to, every run in which all threads return takes it; otherwise it stays listed in every run |
| Progress.UnpinnedTakenIff | components/scheduler.cpp:87-139 | an unpinned entry can be taken if and only if `stop()` was not called without workers; with workers every run in which all threads return takes it |
| Completion.StopCanComplete | components/scheduler.cpp:87-139 | from every reachable state with workers, started or the calling thread, in which no entry or script is pinned to a worker without a search, some run ends with all threads returned and every task ended or held |
| Affinity.PinIsLost | components/scheduler.cpp:196-199 | a reachable state in which a task submitted for worker 1 is in the hand of worker 0 |
| Affinity.PinnedIsNeverReady | components/scheduler.cpp:198-199 | in every reachable state a listed entry with a pin never carries a READY fiber |
| Affinity.RunStaysBound | components/scheduler.cpp:164-204 | a task submitted for a worker that never yields READY and is only woken there can be had by no other worker, in any run |
| Straying.PinLastsIff | components/scheduler.cpp:196-204 | with two workers or more and before `stop()`, a task submitted for one worker can come to another if and only if it yields READY somewhere (when only ever woken on its worker), or if and only if it yields at all (however it is woken) |
| Stranding.PinOutlivesWorker | components/scheduler.cpp:196-199 | there is a reachable state with an entry pinned to a worker that no continuation takes, and in no continuation do all threads return |
| Stranding.StopWithoutStart | components/scheduler.cpp:87-139 | after `schedule` and `stop()` without `start()` every thread there is has returned, and the entry stays for ever |
| Dispatch.FifoPerTarget | components/scheduler.cpp:164-185 | per pin, the log of pushes is the log of dispatches followed by what is still listed, in order |
| Dispatch.NeverOvertaken | components/scheduler.cpp:164-185 | while an unpinned entry is listed every search of every worker succeeds, at or before that entry |
| Dispatch.BoundedBypass | components/scheduler.cpp:162-186 | an unpinned entry with k entries ahead is taken by the (k+1)-th search at the latest, whatever is scheduled meanwhile |
| Dispatch.StepConserves | components/scheduler.cpp:158-224 | each dispatch uses up exactly one segment; no other step but a submission from outside adds or removes any |
| Dispatch.SegmentsConserved | components/scheduler.cpp:158-224 | over any interleaving, dispatches plus remaining segments equal the initial segments plus those submitted |
| Work.StepWorks | components/scheduler.cpp:158-224 | each successful search, swap in, action of a task, decrement and settling uses up exactly one unit of a measure of the state; no other step but a submission from outside changes it |
| Work.WorkConserved | components/scheduler.cpp:158-241 | over any interleaving the steps outside the idle loop plus the measure left equal the measure at the start plus what was submitted |
| Work.EndlessRunsIdle | components/scheduler.cpp:225-241 | an endless run without submissions from outside consists, from some point on, of idling only |
| RoundRobin.TurnKeeps | components/scheduler.cpp:192-204 | one turn of the interpreter keeps the queue well formed and uses up one segment |
| RoundRobin.TraceUsesSegments | components/scheduler.cpp:145-243 | the interpreter ends with an empty queue after exactly as many dispatches as there were segments, tasks held or listed for other threads aside |
| RoundRobin.OutcomePinsOk | components/scheduler.h:37-48 | if no task is listed for another thread and no script asks for one, none ever is |
| RoundRobinOrder.TraceInOrder | components/scheduler.cpp:158-224 | everything listed is dispatched once, in the order of the list, before anything is dispatched twice |
| RoundRobinOrder.TurnAppends | components/scheduler.cpp:192-204 | in a turn the others keep their places; behind them come the tasks made and woken in that segment, in the order of the calls and only those meant for this thread, and last the task itself if it yielded READY |
| RoundRobinOrder.OutcomeComplete | components/scheduler.cpp:145-243 | at the end no task that was listed for this thread is left waiting |
| SingleWorker.Fiber.Reset | components/fiber.cpp:105-120 | from INIT, TERM or EXCEPT a fiber is INIT again with the new code |
| SingleWorker.Scheduler.ScheduleNoLock | components/scheduler.h:75-84 | pushes an entry that has a fiber or a callback at the back, and tells whether the list was empty |
| SingleWorker.Scheduler.Submit | components/scheduler.h:37-48 | one entry with the given pin is listed last, with a fiber or as a callback; its task joins the interpreter's queue at the back, or is set aside if pinned to another thread |
| SingleWorker.Scheduler.Wake | components/scheduler.h:37-48 | the fiber of a held task is listed last with the given pin; its task joins the queue at the back, or is set aside if pinned to another thread; otherwise nothing changes |
| SingleWorker.Scheduler.SwapIn | components/fiber.cpp:123-199 | running a fiber up to its next stop has the effect of the interpreter's segment and leaves the fiber in the state of that stop |
| SingleWorker.Scheduler.Search | components/scheduler.cpp:164-185 | the loop finds the first entry this thread may run, or the end of the list |
| SingleWorker.Scheduler.Pick | components/scheduler.cpp:159-186 | the first entry for this thread, the head of the interpreter's queue, is taken and counted active, or nothing changes if there is none |
| SingleWorker.Scheduler.RunFiber | components/scheduler.cpp:192-204 | dispatching a fiber is one turn of the interpreter and leaves the active count one lower |
| SingleWorker.Scheduler.RunCallback | components/scheduler.cpp:206-224 | dispatching a callback is one turn of the interpreter; the spare fiber is kept, in INIT, exactly if the callback has ended, and is the task's own from then on if it yielded |
| SingleWorker.Scheduler.BeIdle | components/scheduler.cpp:235-240 | the idle fiber ends if `stopping()` holds and is in HOLD otherwise; the idle count is restored |
| SingleWorker.Scheduler.Iterate | components/scheduler.cpp:158-242 | one round of the loop makes one turn of the interpreter if there is one to make; otherwise it leaves the list alone, breaks only with the list empty, and with entries for other threads listed goes on idling |
| SingleWorker.Scheduler.Run | components/scheduler.cpp:145-243 | if the interpreter leaves nothing listed for other threads, `run` returns, with an empty list and zero counters, having made the dispatches of the round-robin interpreter in the same order, those listed at the start first and in order |
| SingleWorker.Scheduler.Stop | components/scheduler.cpp:87-139 | `stop()` on the only thread runs everything scheduled to the end in round-robin order, what is listed first and in order; it fails exactly when it is called again with entries listed, where it resumes the ended root fiber |
| FiberControl.MoveRefines | components/fiber.cpp:123-140 | every context swap on the recorded pointers is a push or pop on the thread's stack of fibers, for every fiber that the assertion of `swapIn` admits |
| FiberControl.CurrentIsRunning | components/fiber.cpp:142-157 | in every interleaving the recorded current fiber is the one executing and the top of its thread's nesting, and no two threads execute the same fiber |
| FiberControl.ReturnsWhereItWasCalled | components/fiber.cpp:134-247 | a fiber that yields or ends comes back into the `run` of the thread that resumed it, at the swap waiting for it; an ended root fiber comes back into `stop()` |
| FiberStates.ExecIffRunning | components/fiber.cpp:123-140 | in every interleaving a fiber that workers swap in is EXEC if and only if some thread runs on it |
| FiberStates.StatesFollow | components/fiber.cpp:105-199 | whoever is swapped in or called is EXEC and runs; whoever yields or ends is left in the state it yielded or ended with; new and reset fibers are INIT; no other fiber changes its state |
| FiberStates.CanBeResumed | components/fiber.cpp:123-169 | a fiber that yielded READY or HOLD on any thread can be swapped in by any thread that stands in its `run`, until one does so |
| FiberStates.EndedCanBeReset | components/fiber.cpp:105-120 | a fiber can be given a new callback after it has ended or before it starts, and not after a yield |
| Patterns.NameLength | components/log.cpp:433-437 | the longest run of name characters |
| Patterns.CloseAt | components/log.cpp:448-455 | the position of the first closing brace, or the end |
| LogFormatter.LogFormatter.ScanDirective | components/log.cpp:426-462 | the inner loop ends within the pattern and reads exactly the directive the recursive tokenizer reads, or finds the brace unclosed |
| LogFormatter.LogFormatter.Iterate | components/log.cpp:413-480 | one round of the outer loop moves on within the pattern and stays on the course of the recursive tokenizer, the error branch included |
| LogFormatter.LogFormatter.Init | components/log.cpp:408-516 | the nested loops yield the items and the error flag of the recursive tokenizer and the directive table |
| PatternGrammar.CompileShown | components/log.cpp:408-516 | every text of the grammar compiles without an error to the items its pieces mean |
| PatternGrammar.AcceptsExactly | components/log.cpp:464-511 | the error flag is false if and only if the pattern belongs to the grammar |
| PatternGrammar.PrintUndoesCompile | components/log.cpp:500-511 | printing the items of an accepted pattern gives it back without its empty braces, and gives it back unchanged if and only if it has none |
| PatternGrammar.ParserUndoesPrinter | components/log.cpp:413-511 | the printed form of a well-formed list of items compiles to that list without an error |
| PatternGrammar.PrintedCompilesBackIff | components/log.cpp:413-511 | printing an accepted pattern's items and compiling again gives the same items if and only if no dropped `{}` stood before a letter or a brace |
| PatternGrammar.DoublePercentFails | components/log.cpp:420-424 | `%%` after text without `%` always sets the error flag |
| PatternGrammar.UnclosedBrace | components/log.cpp:471-475 | an unclosed brace yields the error item first and then exactly what the pattern without that `%` yields, other directives included |
| PatternGrammar.UnclosedBraceThenText | components/log.cpp:471-475 | with no other directive, that is the error item followed by all the rest as one literal |
| PatternLaws.BareDirective | components/log.cpp:426-462 | a name ends before the first character that is neither letter nor brace; it becomes the item of one of the twelve directives or the text of the error, and the rest compiles by itself |
| PatternLaws.BracedDirective | components/log.cpp:440-455 | a format reaches up to the first closing brace, and what follows compiles by itself |
| PatternLaws.DoublePercentItems | components/log.cpp:420-424 | `%%` appends one `%` to the text before it, then comes an error item without a name, then what the pattern from the second `%` on becomes |
| PatternLaws.UnclosedBraceItems | components/log.cpp:471-475 | the items of an unclosed brace: the error text, then all the rest as one text |
| PatternLaws.ListIsTable | components/log.cpp:483-498 | the directives are m, p, r, c, t, n, d, f, l, T, F and N |
| Loggers.LogAppender.SetFormatter | components/log.h:210-217 | an explicit formatter marks the appender as having its own, a null one unmarks it |
| Loggers.Logger.AddAppender | components/log.cpp:260-266 | the appender is attached last and takes over the logger's formatter only if it has none |
| Loggers.Logger.DelAppender | components/log.cpp:267-275 | the first occurrence of the appender is detached, nothing else changes |
| Loggers.Logger.SetFormatter | components/log.cpp:282-292 | the new formatter reaches the attached appenders without their own, and no others |
| Loggers.Logger.SetPattern | components/log.cpp:294-302 | a pattern outside the grammar changes nothing, any other one acts as its formatter |
| Loggers.OpKeepsInheritance | components/log.cpp:260-302 | each orderly call keeps every attached appender without its own formatter on the logger's current one |
| Loggers.AddKeepsInheritanceIff | components/log.cpp:260-266 | attaching keeps that if and only if the appender is fresh, has its own formatter, or already holds the logger's |
| Loggers.InheritanceOverRuns | components/log.cpp:260-302 | over any orderly sequence of calls inheritance holds, and every appender that was ever given its own formatter, before or during the calls, has the one last given |
| Loggers.ReattachedIsStale | components/log.cpp:260-266 | detaching, changing the logger's formatter and attaching again leaves the appender with the old one |
| Loggers.NullMakesFresh | components/log.h:210-217 | an appender given a null formatter takes the next one offered by its logger, or by the logger it is attached to |
| LogReload.Configure | components/log.cpp:649-674 | one definition gives the logger exactly its level and appenders, with own formatters where they compile and the logger's elsewhere; false exactly for an unknown appender kind |
| LogReload.ConfiguredMatches | components/log.cpp:649-674 | a configured logger has the definition's level and one appender per definition, of its kind, level and file, with its own format where that is in the grammar and the logger's formatter elsewhere |
| LogReload.LoggerManager.GetLogger | components/log.cpp:536-547 | finds the logger of that name or files a new one with the default formatter; every logger but the root is linked to the root |
| LogReload.LoggerManager.Reload | components/log.cpp:633-688 | survives if and only if no definition is carried over unchanged and all appender kinds are known; then new and changed loggers are configured, dropped ones silenced, all others untouched |
| LogHistory.SetValues | components/config.h:329-341 | setting one configuration after the other is survived if and only if each that differs from the one before can be applied, and then leaves the loggers as the fold of the reloads says |
| LogHistory.ReloadsReachConfig | components/log.cpp:631-690 | after any number of reloads every configured logger matches its definition in level, formatter and appenders, every dropped one has level 100 and no appenders, all others are as before |
| LogHistory.LastFormatStands | components/log.cpp:651-653 | after any number of reloads a logger prints with the last format given to it that compiles, or with what it had before |
| LogHistory.SurvivesIff | components/log.cpp:636-649 | the listener survives if and only if no changed configuration contains a definition that was there before, or an appender that is neither a file nor stdout |
| LogHistory.ReloadsKeepSound | components/log.cpp:663-671 | no logger, and no appender made by a configuration, ever holds a formatter whose pattern is outside the grammar, whatever patterns are configured |
| LogHistory.DefaultIsSound | components/log.cpp:225-227 | the pattern every logger starts with belongs to the grammar |
| ConfigTree.ListAllMember | components/config.cpp:19-33 | appends the pruned listing of the subtree to the output |
| ConfigTree.PruningIsFiltering | components/config.cpp:19-33 | giving up at the first invalid path lists exactly the nodes whose own path is valid, in preorder |
| ConfigTree.DistinctPaths | components/config.cpp:30 | with non-empty dot-free keys, no key twice in a map, no two nodes have the same path |
| ConfigPaths.NameChars | components/config.cpp:22 | a name is valid if it consists of lower-case letters, digits, dots and underscores |
| ConfigPaths.ParentsFirst | components/config.cpp:27-32 | the root comes first and every other node after its parent, under the parent's path, a dot and its key |
| ConfigPaths.ChildrenListed | components/config.cpp:28-32 | every entry of a map is listed under its path, the first entry right after the map |
| ConfigPaths.ListedIffReached | components/config.cpp:19-33 | a node is in the full listing under a path if and only if some keys lead from the root to it along that path |
| ConfigLoad.LowerOfValid | components/config.cpp:45-46 | lower-casing is the identity on valid names |
| ConfigLoad.ConfigVar.SetValue | components/config.h:329-341 | listeners are told the old and new value exactly when they differ |
| ConfigLoad.ConfigVar.FromString | components/config.h:314-322 | a text that does not convert changes nothing; the answer is false either way |
| ConfigLoad.ToldIsAChain | components/config.h:329-341 | the changes listeners are told form a chain from the first value to the last |
| ConfigLoad.LastConverts | components/config.h:314-322 | the value is that of the last text that converts, or the first value if none does |
| ConfigLoad.TextsInOrder | components/config.cpp:39-57 | the texts of a name come in the order of the listing |
| ConfigLoad.PruningIsHarmless | components/config.cpp:35-58 | a registered name gets the same texts from the pruned listing as from the full one |
| ConfigLoad.OneTextPerName | components/config.cpp:35-58 | in a tree with plain keys a registered name gets at most one text, that of the node at its path |
| ConfigLoad.Config.Lookup | components/config.h:382-407 | an existing variable of the type is returned, one of another type gives null, an invalid new name is refused, a valid one registered with its name, type, default and converter and no changes told |
| ConfigLoad.Config.Find | components/config.h:409-420 | null for a missing name and for a variable of another type |
| ConfigLoad.Config.LoadFromYaml | components/config.cpp:35-58 | every variable ends with the last text at its path that converted, its listeners told each change; the empty name is never loaded |

## Left out

- Scheduling a range (`components/scheduler.h:50-63`): it never advances its iterator and calls `scheduleNoLock` with an argument missing.
- Restarting a scheduler after `stop()`: the root fiber has ended and cannot be called again.
- SingleWorker.Scheduler.Run: the case where entries for other threads remain, in which `run` never returns; `SingleWorker.Scheduler.Iterate` covers each of its rounds and `Shutdown.StopHangs` the run, for any number of workers.
- SingleWorker.Scheduler.Stop: likewise.
- SingleWorker.Scheduler.SwapIn: the context switch itself is a method call here; `FiberControl` models the switch.
- FiberControl: on values rather than objects, because several threads interleave; which task code runs on a fiber is not part of it.
- Liveness under a fair thread schedule: the idle loop of a worker may spin any number of times; what is proved is that searches succeed, that dispatches are bounded by the segments there are, that nothing is stranded, and that `stop()` can complete unless a pin points at a worker without a search.
- Real contexts, stacks, threads, semaphores, spinlocks, and `tickle`, which only logs.
- The fiber count, fiber ids and the destructor of a thread's own fiber.
- YAML parsing and printing, lexical casts and the round trip of a `LogDefine` through text: the tree, the text of each node and the conversion are given.
- Adding and removing configuration listeners; `ConfigLoad.ConfigVar` records what every listener is told.
- Concurrent calls of `setValue`, whose read and write phases are separate critical sections.
- Rendering a log event with the compiled items, and the appenders that write it.
