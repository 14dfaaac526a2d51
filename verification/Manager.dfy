/** services/src/screen_brightness_manager.cpp: who may run the brightness task. */
module Manager {
  import opened Prelude

  type Executor = nat   // the identity of an executor object
  type TaskId = nat     // tasks are numbered in the order they are handed out

  datatype ResultCode = SUCCESS | GENERAL_ERROR

  datatype CommandId = BEGIN_SCREEN_BRIGHTNESS_INCREASE | END_SCREEN_BRIGHTNESS_INCREASE | OTHER(code: int)

  /** The calls the manager makes on tasks, and for which executor. */
  datatype TaskCall = Start(task: TaskId, owner: Executor) | Stop(task: TaskId, owner: Executor)

  datatype State = State(executorInProc: Option<Executor>, taskInProc: Option<TaskId>, made: nat, calls: seq<TaskCall>)

  function Fresh(): State { State(None, None, 0, []) }

  /** ProcessScreenBrightnessIncreaseBegin; acquiring the library and making the task may each fail. */
  function Begin(s: State, executor: Executor, acquired: bool, created: bool): (State, ResultCode) {
    if s.executorInProc != None || s.taskInProc != None || !acquired || !created then (s, GENERAL_ERROR)
    else (State(Some(executor), Some(s.made), s.made + 1, s.calls + [Start(s.made, executor)]), SUCCESS)
  }

  /** Give the module up: stop the task if there is one. */
  function GiveUp(s: State, executor: Executor): State {
    var calls := match s.taskInProc case Some(t) => s.calls + [Stop(t, executor)] case None => s.calls;
    s.(executorInProc := None, taskInProc := None, calls := calls)
  }

  function End(s: State, executor: Executor): (State, ResultCode) {
    if s.executorInProc != Some(executor) then (s, GENERAL_ERROR) else (GiveUp(s, executor), SUCCESS)
  }

  /** ProcessSaCommand; the executor may be null. */
  function Command(s: State, executor: Option<Executor>, id: CommandId, acquired: bool,
                   created: bool): (State, ResultCode)
  {
    match executor
    case None => (s, GENERAL_ERROR)
    case Some(e) =>
      match id
      case BEGIN_SCREEN_BRIGHTNESS_INCREASE => Begin(s, e, acquired, created)
      case END_SCREEN_BRIGHTNESS_INCREASE => End(s, e)
      case OTHER(_) => (s, GENERAL_ERROR)
  }

  /** OnHdiDisconnect; the executor may be null. */
  function Disconnect(s: State, executor: Option<Executor>): State {
    if executor == None || s.executorInProc != executor then s else GiveUp(s, executor.value)
  }

  // ------------------------------------------------------------------------------------------
  // Ownership over whole runs.
  // ------------------------------------------------------------------------------------------

  datatype Op =
    | DoCommand(executor: Option<Executor>, id: CommandId, acquired: bool, created: bool)
    | DoDisconnect(executor: Option<Executor>)

  function Perform(s: State, op: Op): State {
    match op
    case DoCommand(e, id, a, c) => Command(s, e, id, a, c).0
    case DoDisconnect(e) => Disconnect(s, e)
  }

  function PerformAll(s: State, ops: seq<Op>): State
    decreases |ops|
  {
    if ops == [] then s else PerformAll(Perform(s, ops[0]), ops[1..])
  }

  /** Call 2k starts task k for someone, call 2k + 1 stops it for the same one. */
  ghost predicate Turn(calls: seq<TaskCall>, i: nat)
    requires i < |calls|
  {
    if i % 2 == 0 then calls[i].Start? && calls[i].task == i / 2
    else calls[i] == Stop(i / 2, calls[i - 1].owner)
  }

  ghost predicate Alternating(calls: seq<TaskCall>) { forall i | 0 <= i < |calls| :: Turn(calls, i) }

  /** The fields say exactly how the history of calls ends. */
  ghost predicate Owned(s: State) {
    && Alternating(s.calls)
    && s.made == (|s.calls| + 1) / 2
    && (if |s.calls| % 2 == 1
        then s.executorInProc == Some(s.calls[|s.calls| - 1].owner) && s.taskInProc == Some(|s.calls| / 2)
        else s.executorInProc == None && s.taskInProc == None)
  }

  lemma OwnedStep(s: State, op: Op)
    requires Owned(s)
    ensures Owned(Perform(s, op))
  {
    var n := Perform(s, op);
    forall i | 0 <= i < |n.calls|
      ensures Turn(n.calls, i)
    {
      if i < |s.calls| {
        assert Turn(s.calls, i);
      }
    }
  }

  /**
   Ownership: over every run of commands and disconnects, by any executors and with any failures, the calls on
   tasks alternate start and stop, each task is stopped at most once and only on behalf of the executor it
   was started for, and there is an owner exactly when there is a current task.
   */
  lemma {:induction false} OwnershipAlways(s: State, ops: seq<Op>)
    requires Owned(s)
    ensures Owned(PerformAll(s, ops))
    decreases |ops|
  {
    if ops != [] {
      OwnedStep(s, ops[0]);
      OwnershipAlways(Perform(s, ops[0]), ops[1..]);
    }
  }

  lemma OwnerIffTask(ops: seq<Op>, i: nat, j: nat)
    ensures var s := PerformAll(Fresh(), ops);
            && (s.executorInProc == None <==> s.taskInProc == None)
            && |s.calls| == 2 * s.made - (if s.taskInProc == None then 0 else 1)
            && (i < j < |s.calls| && s.calls[i].Stop? && s.calls[j].Stop? ==> s.calls[i].task != s.calls[j].task)
            && (j < |s.calls| && s.calls[j].Stop? ==>
                  j >= 1 && s.calls[j - 1] == Start(s.calls[j].task, s.calls[j].owner))
  {
    OwnershipAlways(Fresh(), ops);
    var calls := PerformAll(Fresh(), ops).calls;
    if j < |calls| && calls[j].Stop? {
      assert Turn(calls, j) && j % 2 == 1 && Turn(calls, j - 1);
      if i < j && calls[i].Stop? {
        assert Turn(calls, i) && i % 2 == 1;
      }
    }
  }

  /** What an operation answers after any run: Begin succeeds iff the module is free and nothing fails, End iff the
      owner asks, nothing else does; a command without SUCCESS changes nothing. */
  lemma OperationsAnswer(ops: seq<Op>, op: Op)
    ensures var s := PerformAll(Fresh(), ops);
            op.DoCommand? ==>
              var r := Command(s, op.executor, op.id, op.acquired, op.created);
              && (r.1 != SUCCESS ==> r.0 == s)
              && (r.1 == SUCCESS <==>
                    match op.id
                    case BEGIN_SCREEN_BRIGHTNESS_INCREASE =>
                      op.executor.Some? && s.executorInProc == None && op.acquired && op.created
                    case END_SCREEN_BRIGHTNESS_INCREASE => op.executor.Some? && s.executorInProc == op.executor
                    case OTHER(_) => false)
  {
    OwnershipAlways(Fresh(), ops);
  }

  /** The module is free and the only call made is the stop of the task that was current, for its owner. */
  ghost predicate Freed(s: State, n: State) {
    && s.taskInProc.Some? && s.executorInProc.Some? && n.executorInProc == None && n.taskInProc == None
    && n.made == s.made && n.calls == s.calls + [Stop(s.taskInProc.value, s.executorInProc.value)]
  }

  /** What an operation does after any run: a successful Begin makes its own executor the owner of a task nobody ever
      had, and starts it; a successful End and the owner's disconnect free the module; nothing else does anything. */
  lemma OperationsDo(ops: seq<Op>, op: Op)
    ensures var s := PerformAll(Fresh(), ops); var n := Perform(s, op);
            if op.DoDisconnect? then
              if op.executor.Some? && op.executor == s.executorInProc then Freed(s, n) else n == s
            else if Command(s, op.executor, op.id, op.acquired, op.created).1 != SUCCESS then n == s
            else if op.id.END_SCREEN_BRIGHTNESS_INCREASE? then Freed(s, n)
            else
              && n.executorInProc == op.executor && n.executorInProc.Some? && n.taskInProc.Some?
              && (forall c | c in s.calls :: c.task != n.taskInProc.value)
              && n.calls == s.calls + [Start(n.taskInProc.value, op.executor.value)]
  {
    OwnershipAlways(Fresh(), ops);
    var s := PerformAll(Fresh(), ops);
    if s.taskInProc == None {
      forall c | c in s.calls
        ensures c.task != s.made
      {
        var i :| 0 <= i < |s.calls| && s.calls[i] == c;
        assert Turn(s.calls, i);
      }
    }
  }

  /** An End or a disconnect of `e`. */
  predicate Leaves(op: Op, e: Executor) {
    op.executor == Some(e) && (op.DoDisconnect? || op.id.END_SCREEN_BRIGHTNESS_INCREASE?)
  }

  lemma {:induction false} OwnerHolds(s: State, e: Executor, ops: seq<Op>)
    requires s.executorInProc == Some(e) && forall i | 0 <= i < |ops| :: !Leaves(ops[i], e)
    ensures PerformAll(s, ops) == s
    decreases |ops|
  {
    if ops != [] {
      OwnerHolds(s, e, ops[1..]);
    }
  }

  /**
   Exclusive ownership as a round trip: once `e` has begun, whatever anybody else asks for and whatever `e` asks for
   short of an End changes nothing and an End of anyone else is refused; then the End of `e` succeeds, or its
   disconnect comes, and either frees the module with exactly one start and one stop of the task.
   */
  lemma BeginHoldsUntilEnd(before: seq<Op>, e: Executor, between: seq<Op>, other: Option<Executor>)
    requires PerformAll(Fresh(), before).executorInProc == None
    requires forall i | 0 <= i < |between| :: !Leaves(between[i], e)
    ensures var s := PerformAll(Fresh(), before);
            var begun := Perform(s, DoCommand(Some(e), BEGIN_SCREEN_BRIGHTNESS_INCREASE, true, true));
            var held := PerformAll(begun, between);
            var ended := Command(held, Some(e), END_SCREEN_BRIGHTNESS_INCREASE, true, true);
            && held == begun && begun.executorInProc == Some(e)
            && (other != Some(e) ==>
                  Command(held, other, END_SCREEN_BRIGHTNESS_INCREASE, true, true) == (held, GENERAL_ERROR))
            && ended.1 == SUCCESS && ended.0 == Disconnect(held, Some(e))
            && ended.0.executorInProc == None && ended.0.taskInProc == None && begun.taskInProc.Some?
            && ended.0.calls == s.calls + [Start(begun.taskInProc.value, e), Stop(begun.taskInProc.value, e)]
  {
    OwnershipAlways(Fresh(), before);
    var begun := Perform(PerformAll(Fresh(), before), DoCommand(Some(e), BEGIN_SCREEN_BRIGHTNESS_INCREASE, true, true));
    OwnerHolds(begun, e, between);
  }

  // ------------------------------------------------------------------------------------------

  class ScreenBrightnessManager {
    var executorInProc: Option<Executor>
    var taskInProc: Option<TaskId>
    var made: nat  // tasks handed out so far: the identity of the next one
    ghost var calls: seq<TaskCall>

    ghost function AsState(): State
      reads this
    {
      State(executorInProc, taskInProc, made, calls)
    }

    constructor ()
      ensures AsState() == Fresh()
    {
      executorInProc, taskInProc, made, calls := None, None, 0, [];
    }

    method ProcessSaCommand(executor: Option<Executor>, id: CommandId, acquired: bool, created: bool)
      returns (result: ResultCode)
      modifies this
      ensures (AsState(), result) == Command(old(AsState()), executor, id, acquired, created)
    {
      if executor == None {
        return GENERAL_ERROR;
      }
      result := GENERAL_ERROR;
      match id
      case BEGIN_SCREEN_BRIGHTNESS_INCREASE =>
        result := ProcessScreenBrightnessIncreaseBegin(executor.value, acquired, created);
      case END_SCREEN_BRIGHTNESS_INCREASE =>
        result := ProcessScreenBrightnessIncreaseEnd(executor.value);
      case OTHER(_) =>
    }

    method OnHdiDisconnect(executor: Option<Executor>)
      modifies this
      ensures AsState() == Disconnect(old(AsState()), executor)
    {
      if executor == None {
        return;
      }
      if executorInProc != executor {
        return;
      }
      executorInProc := None;
      if taskInProc != None {
        calls := calls + [Stop(taskInProc.value, executor.value)];
        taskInProc := None;
      }
    }

    method ProcessScreenBrightnessIncreaseBegin(executor: Executor, acquired: bool, created: bool)
      returns (result: ResultCode)
      modifies this
      ensures (AsState(), result) == Begin(old(AsState()), executor, acquired, created)
      ensures result == SUCCESS ==>
                executorInProc == Some(executor) && taskInProc == Some(old(made))
                && calls == old(calls) + [Start(old(made), executor)]
    {
      if executorInProc != None {
        return GENERAL_ERROR;
      }
      if taskInProc != None {
        return GENERAL_ERROR;
      }
      if !acquired {
        return GENERAL_ERROR;
      }
      if !created {
        return GENERAL_ERROR;
      }
      var task := made;
      made := made + 1;
      calls := calls + [Start(task, executor)];
      executorInProc := Some(executor);
      taskInProc := Some(task);
      return SUCCESS;
    }

    method ProcessScreenBrightnessIncreaseEnd(executor: Executor) returns (result: ResultCode)
      modifies this
      ensures (AsState(), result) == End(old(AsState()), executor)
    {
      if executorInProc != Some(executor) {
        return GENERAL_ERROR;
      }
      executorInProc := None;
      if taskInProc != None {
        calls := calls + [Stop(taskInProc.value, executor)];
        taskInProc := None;
      }
      return SUCCESS;
    }
  }
}
