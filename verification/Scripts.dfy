/** What the scheduler can see of a task: where its code yields, what it schedules, how it ends. */
module Scripts {

  datatype Option<+T> = None | Some(value: T)

  /** `Fiber::State`. */
  datatype FiberState = INIT | HOLD | EXEC | TERM | READY | EXCEPT

  /** The `thread` argument of `schedule`: -1, the calling thread's own id, or some worker's id. */
  datatype Target = AnyThread | OwnThread | OnThread(thread: nat)

  /** The finite behaviour of a task. `Wake(t, ..)` is a call `schedule(f)` for the held fiber `f` of
      task `t` by its owner; it does nothing when `t` is not held, since the owner then does not call. */
  datatype Script =
    | Finish
    | Throw
    | YieldReady(rest: Script)
    | YieldHold(rest: Script)
    | Spawn(child: Script, asCallback: bool, target: Target, rest: Script)
    | Wake(task: nat, target: Target, rest: Script)

  /** Dispatches still needed after the running segment of `script`, children included. */
  function Residue(script: Script): nat {
    match script
    case Finish => 0
    case Throw => 0
    case YieldReady(rest) => 1 + Residue(rest)
    case YieldHold(rest) => 1 + Residue(rest)
    case Spawn(child, _, _, rest) => 1 + Residue(child) + Residue(rest)
    case Wake(_, _, rest) => Residue(rest)
  }
}
