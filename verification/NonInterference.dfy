/**
 The top of the stack: although Stop() only queues an event, the effects of successive tasks on sensor and display
 never interleave, as long as at most `cap` threads are between push and post of one machine.
 */
module NonInterference {
  import opened Prelude
  import opened StateMachine
  import opened ThreadHandling
  import opened TaskModel
  import opened TaskRun
  import opened System
  import R = Runtime
  import M = Manager

  // ------------------------------------------------------------------------------------------
  // The property, on the trace alone.
  // ------------------------------------------------------------------------------------------

  /** Task `i` was restored before position `q`. */
  ghost predicate RestoredBefore(trace: seq<Tagged>, i: nat, q: nat) {
    exists p :: 0 <= p < q && p < |trace| && trace[p] == Tagged(i, Restore)
  }

  /** Effects come task by task; every earlier task was restored before a task touches anything; a restore is the
      last thing a task ever does. */
  ghost predicate NoInterleaving(trace: seq<Tagged>) {
    && (forall p, q | 0 <= p < q < |trace| :: trace[p].task <= trace[q].task)
    && (forall q, i: nat | 0 <= q < |trace| && i < trace[q].task :: RestoredBefore(trace, i, q))
    && (forall p, q | 0 <= p < q < |trace| && trace[p].effect == Restore :: trace[p].task < trace[q].task)
  }

  /** The effects of one task, in order. */
  function Project(trace: seq<Tagged>, i: nat): seq<Effect> {
    if trace == [] then []
    else Project(trace[..|trace| - 1], i)
         + if trace[|trace| - 1].task == i then [trace[|trace| - 1].effect] else []
  }

  lemma ProjectSnoc(trace: seq<Tagged>, x: Tagged, i: nat)
    ensures Project(trace + [x], i) == if x.task == i then Project(trace, i) + [x.effect] else Project(trace, i)
  {
    assert (trace + [x])[..|trace|] == trace;
  }

  lemma {:induction false} ProjectTag(trace: seq<Tagged>, j: nat, effects: seq<Effect>, i: nat)
    ensures Project(trace + Tag(j, effects), i) == if i == j then Project(trace, i) + effects else Project(trace, i)
    decreases |effects|
  {
    if effects == [] {
      assert trace + Tag(j, effects) == trace;
    } else {
      var front, last := effects[..|effects| - 1], effects[|effects| - 1];
      ProjectTag(trace, j, front, i);
      ProjectSnoc(trace + Tag(j, front), Tagged(j, last), i);
      assert trace + Tag(j, effects) == trace + Tag(j, front) + [Tagged(j, last)];
      assert effects == front + [last];
      assert Project(trace, i) + effects == Project(trace, i) + front + [last];
    }
  }

  lemma {:induction false} ProjectMember(trace: seq<Tagged>, i: nat, x: Effect)
    ensures x in Project(trace, i) <==> Tagged(i, x) in trace
    decreases |trace|
  {
    if trace != [] {
      var front, last := trace[..|trace| - 1], trace[|trace| - 1];
      assert trace == front + [last];
      ProjectMember(front, i, x);
    }
  }

  // ------------------------------------------------------------------------------------------
  // What holds however many threads there are.
  // ------------------------------------------------------------------------------------------

  /** The manager's stop is event number `target` of this task. */
  ghost predicate StopKnown(m: Task, target: nat) {
    2 <= target <= |m.arrivals| && m.arrivals[target - 1] == E_STOP
  }

  ghost predicate TasksSound(c: Config, s: Sys) {
    forall i | 0 <= i < |s.rt.machines| :: TaskInv(s.rt.machines[i]) && s.rt.machines[i].inFlight <= c.threads
  }

  /** Every task but the manager's current one has its stop. */
  ghost predicate StopsSound(s: Sys) {
    && (forall i: nat :: i in s.stopAt <==> i < |s.rt.machines| && s.mgr.taskInProc != Some(i))
    && (forall i | i in s.stopAt :: i < |s.rt.machines| && StopKnown(s.rt.machines[i], s.stopAt[i]))
  }

  ghost predicate ManagerSound(s: Sys) {
    && M.Owned(s.mgr) && s.mgr.made == |s.rt.machines|
    && (s.posting.Some? ==> s.posting.value + 1 == |s.rt.machines| && s.rt.machines[s.posting.value].inFlight >= 1)
  }

  ghost predicate JobsSound(s: Sys) {
    && (forall j | j in s.rt.jobs && j.Run? :: j.machine < |s.rt.machines|)
    && (forall j | j in s.rt.jobs && j.Signal? :: j.promise in s.leaving)
    && (forall i | i in s.leaving :: i in s.stopAt && s.posting != Some(i))
    && s.rt.signalled <= s.leaving && s.rt.expired <= s.rt.signalled
  }

  ghost predicate Basic(c: Config, s: Sys) {
    && R.WellFormed(s.rt) && R.AllCovered(s.rt)
    && TasksSound(c, s) && StopsSound(s) && ManagerSound(s) && JobsSound(s)
  }

  lemma InitBasic(c: Config)
    ensures Basic(c, Init())
  {
  }

  lemma RuntimeSound(c: Config, s: Sys, step: SysStep)
    requires c.cap >= 1 && Basic(c, s) && Enabled(c, s, step)
    ensures R.WellFormed(Apply(c, s, step).rt) && R.AllCovered(Apply(c, s, step).rt)
  {
    hide Apply, Lower, Enabled, TasksSound, StopsSound, ManagerSound, JobsSound, R.Enabled, R.Apply;
    Simulates(c, s, step);
    R.CoveredAlways(c.cap, s.rt, Lower(c, s, step));
  }

  /** A stopped task has ended already or has the stop in its queue. */
  lemma StopIsSomewhere(m: Task, target: nat)
    requires TaskInv(m) && StopKnown(m, target)
    ensures StepEnabled(m, Shutdown)
    ensures target <= m.popped ==> m.state == S_END && ClosedBlock(m.user.effects)
  {
    hide InState, DataSound, TicksBounded, TaskTables, FoldState, ClosedBlock, Join;
    assert m.popped <= |m.arrivals|;
    hide EventsSound;
    if target <= m.popped {
      StopHandledMeansEnd(m, target - 1);
    } else {
      assert m.arrivals[m.popped..][target - 1 - m.popped] == E_STOP;
    }
  }

  predicate Pushes(ts: TaskStep) { ts.Deliver? || ts.Light? || ts.Stop? }

  /** A task step the outside or the worker takes grows the arrivals and keeps the effects unless it handles. */
  lemma TaskMoves(m: Task, ts: TaskStep)
    requires TaskInv(m) && StepEnabled(m, ts)
    ensures var n := TaskApply(m, ts);
            && TaskInv(n) && m.arrivals <= n.arrivals && m.popped <= n.popped
            && n.inFlight <= (if Pushes(ts) then m.inFlight + 1 else m.inFlight)
            && n.inFlight >= (if ts.Posted? then m.inFlight - 1 else m.inFlight)
            && (!ts.Handle? ==> n.user.effects == m.user.effects && n.popped == m.popped)
  {
    hide TaskInv, R.Handled;
    TaskStepKeeps(m, ts);
    if ts.Handle? {
      HandledGrows(m);
    }
  }

  lemma HandledGrows(m: Task)
    requires TaskInv(m) && m.Pending() > 0
    ensures var n := R.Handled(m); m.arrivals <= n.arrivals && n.popped == m.popped + 1 && n.inFlight == m.inFlight
  {
    R.HandledSound(m);
  }

  ghost predicate ManagerStep(step: SysStep) { step.BeginCommand? || step.EndCommand? || step.Disconnect? }

  /** What a manager operation does to the manager, in a sound state. */
  lemma ManagerMoves(s: Sys, step: SysStep)
    requires ManagerSound(s) && ManagerStep(step)
    ensures var n := M.Perform(s.mgr, ManagerOp(step));
            && M.Owned(n)
            && (s.mgr.taskInProc.Some? ==> s.mgr.taskInProc.value + 1 == |s.rt.machines|)
            && (step.BeginCommand? ==>
                  n == s.mgr || (s.mgr.taskInProc == None && n.taskInProc == Some(|s.rt.machines|)
                                 && n.made == |s.rt.machines| + 1))
            && (!step.BeginCommand? ==>
                  n.made == s.mgr.made && (if Stopped(s, step) == None then n == s.mgr else n.taskInProc == None))
  {
    M.OwnedStep(s.mgr, ManagerOp(step));
  }

  /** The task step a system step means for task `i`, if any. */
  function TaskMove(s: Sys, step: SysStep, i: nat): Option<TaskStep> {
    match step
    case World(k, ts) => if k == i then Some(ts) else None
    case ManagerPosts => if s.posting == Some(i) then Some(Posted) else None
    case OtherPosts(k) => if k == i then Some(Posted) else None
    case DestructBegins(k) => if k == i then Some(Shutdown) else None
    case WorkerPops => if s.rt.worker.Running? && s.rt.worker.machine == i then Some(Handle) else None
    case EndCommand(_) => if Stopped(s, step) == Some(i) then Some(TaskStep.Stop) else None
    case Disconnect(_) => if Stopped(s, step) == Some(i) then Some(TaskStep.Stop) else None
    case _ => None
  }

  lemma WorldMoveIs(c: Config, s: Sys, step: SysStep, i: nat)
    requires Enabled(c, s, step) && i < |s.rt.machines| && step.World?
    ensures var t := Apply(c, s, step);
            && i < |t.rt.machines|
            && match TaskMove(s, step, i)
               case None => t.rt.machines[i] == s.rt.machines[i]
               case Some(ts) => StepEnabled(s.rt.machines[i], ts) && t.rt.machines[i] == TaskApply(s.rt.machines[i], ts)
    ensures TaskMove(s, step, i) == Some(Handle) ==> step.WorkerPops?
    ensures TaskMove(s, step, i) == Some(Posted) ==> step.ManagerPosts? || step.OtherPosts?
    ensures TaskMove(s, step, i).Some? && Pushes(TaskMove(s, step, i).value) ==> s.rt.machines[i].inFlight < c.threads
  {
    hide R.Handled, TaskTables, R.PostAll, M.Perform, Expired, Delivered, Started;
  }

  lemma TaskMoveIs(c: Config, s: Sys, step: SysStep, i: nat)
    requires Enabled(c, s, step) && i < |s.rt.machines|
    requires step.DestructBegins? ==> StepEnabled(s.rt.machines[step.i], Shutdown)
    ensures var t := Apply(c, s, step);
            && i < |t.rt.machines|
            && match TaskMove(s, step, i)
               case None => t.rt.machines[i] == s.rt.machines[i]
               case Some(ts) => StepEnabled(s.rt.machines[i], ts) && t.rt.machines[i] == TaskApply(s.rt.machines[i], ts)
    ensures TaskMove(s, step, i) == Some(Handle) ==> step.WorkerPops?
    ensures TaskMove(s, step, i) == Some(Posted) ==> step.ManagerPosts? || step.OtherPosts?
    ensures TaskMove(s, step, i).Some? && Pushes(TaskMove(s, step, i).value) ==> s.rt.machines[i].inFlight < c.threads
  {
    hide R.Handled, TaskTables, R.PostAll, M.Perform, Expired, Delivered, Started;
    if step.World? {
      hide Apply, Enabled, TaskMove, StepEnabled, TaskApply, Pushes;
      WorldMoveIs(c, s, step, i);
    }
  }

  /** What a step does to a task that exists. */
  lemma TaskKeeps(c: Config, s: Sys, step: SysStep, i: nat)
    requires Basic(c, s) && Enabled(c, s, step) && i < |s.rt.machines|
    ensures var t := Apply(c, s, step);
            && i < |t.rt.machines|
            && TaskInv(t.rt.machines[i]) && t.rt.machines[i].inFlight <= c.threads
            && s.rt.machines[i].arrivals <= t.rt.machines[i].arrivals
            && s.rt.machines[i].popped <= t.rt.machines[i].popped
            && t.rt.machines[i].inFlight
                 >= s.rt.machines[i].inFlight - (if step.ManagerPosts? || step.OtherPosts? then 1 else 0)
            && (!step.WorkerPops? ==> t.rt.machines[i].user.effects == s.rt.machines[i].user.effects
                                      && t.rt.machines[i].popped == s.rt.machines[i].popped)
  {
    if step.DestructBegins? {
      StopIsSomewhere(s.rt.machines[step.i], s.stopAt[step.i]);
    }
    hide TaskInv, R.Handled, Apply, Enabled, StepEnabled, TaskMove, TaskApply, Pushes, R.WellFormed, R.AllCovered,
         JobsSound, ManagerSound, StopsSound;
    TaskMoveIs(c, s, step, i);
    if TaskMove(s, step, i).Some? {
      TaskMoves(s.rt.machines[i], TaskMove(s, step, i).value);
    }
  }

  /** How many tasks there are after a step, and what the manager knows. */
  lemma CountMoves(c: Config, s: Sys, step: SysStep)
    requires Enabled(c, s, step)
    ensures var t := Apply(c, s, step);
            && (ManagerStep(step) ==> t.mgr == M.Perform(s.mgr, ManagerOp(step)))
            && (!ManagerStep(step) ==> t.mgr == s.mgr && t.stopAt == s.stopAt)
            && |t.rt.machines| == |s.rt.machines| + (if step.BeginCommand? && t.mgr != s.mgr then 1 else 0)
            && (step.BeginCommand? && t.mgr != s.mgr ==>
                  && t.posting == Some(|s.rt.machines|) && t.stopAt == s.stopAt
                  && t.rt.machines[|s.rt.machines|] == Started(NewTask(c.table, step.intervalParam, step.maxParam)))
            && (step.BeginCommand? && t.mgr == s.mgr ==> t == s)
  {
    hide R.Handled, TaskTables, R.PostAll, M.Perform, TaskApply, Started, NewTask;
  }

  lemma TasksStaySound(c: Config, s: Sys, step: SysStep)
    requires Sorted(c.table) && Basic(c, s) && Enabled(c, s, step)
    ensures TasksSound(c, Apply(c, s, step))
  {
    var t := Apply(c, s, step);
    hide TaskInv, Apply, Enabled, Started, NewTask;
    CountMoves(c, s, step);
    forall i | 0 <= i < |t.rt.machines|
      ensures TaskInv(t.rt.machines[i]) && t.rt.machines[i].inFlight <= c.threads
    {
      if i < |s.rt.machines| {
        TaskKeeps(c, s, step, i);
      } else {
        NewTaskSound(c, s, step);
      }
    }
  }

  lemma NewTaskSound(c: Config, s: Sys, step: SysStep)
    requires Sorted(c.table) && Enabled(c, s, step) && step.BeginCommand?
    ensures var m := Started(NewTask(c.table, step.intervalParam, step.maxParam));
            TaskInv(m) && m.inFlight <= c.threads && m.inFlight == 1 && m.popped == 0 && m.user.effects == []
  {
    StartedInv(c.table, step.intervalParam, step.maxParam);
  }

  /** Who is posting after a step. */
  lemma PostingMoves(c: Config, s: Sys, step: SysStep)
    requires ManagerSound(s) && Enabled(c, s, step)
    ensures var t := Apply(c, s, step);
            t.posting.Some? ==>
              if s.posting == None then
                t.posting.value + 1 == |t.rt.machines| && t.rt.machines[t.posting.value].inFlight >= 1
              else
                t.posting == s.posting && |t.rt.machines| == |s.rt.machines| && !step.ManagerPosts?
                && (step.OtherPosts? ==> t.rt.machines[t.posting.value].inFlight >= 1)
    ensures step.ManagerPosts? ==> Apply(c, s, step).posting == None
  {
    hide TaskInv, R.Handled, TaskTables, R.PostAll, M.Perform, M.Owned, TaskApply, NewTask;
    if ManagerStep(step) {
      ManagerMoves(s, step);
    }
  }

  lemma ManagerStaysSound(c: Config, s: Sys, step: SysStep)
    requires Basic(c, s) && Enabled(c, s, step)
    ensures ManagerSound(Apply(c, s, step))
  {
    hide TaskInv, TasksSound, R.WellFormed, R.AllCovered, JobsSound, M.Owned, Apply, Enabled;
    CountMoves(c, s, step);
    PostingMoves(c, s, step);
    if ManagerStep(step) {
      ManagerMoves(s, step);
    }
    if s.posting.Some? {
      TaskKeeps(c, s, step, s.posting.value);
    }
  }

  lemma StopStays(m: Task, n: Task, target: nat)
    requires StopKnown(m, target) && m.arrivals <= n.arrivals
    ensures StopKnown(n, target)
  {
  }

  lemma StopKeys(c: Config, s: Sys, step: SysStep, i: nat)
    requires ManagerSound(s) && StopsSound(s) && Enabled(c, s, step)
    ensures var t := Apply(c, s, step); i in t.stopAt <==> i < |t.rt.machines| && t.mgr.taskInProc != Some(i)
  {
    hide M.Perform, M.Owned, StopKnown, Started, TaskApply, R.Apply, R.Enabled;
    if ManagerStep(step) {
      ManagerMoves(s, step);
    } else {
      hide Apply, Enabled;
      CountMoves(c, s, step);
    }
  }

  lemma StopsStaySound(c: Config, s: Sys, step: SysStep)
    requires Basic(c, s) && Enabled(c, s, step)
    ensures StopsSound(Apply(c, s, step))
  {
    hide TaskInv, TasksSound, R.WellFormed, R.AllCovered, JobsSound, ManagerSound, M.Owned, StopKnown, Apply, Enabled;
    var t := Apply(c, s, step);
    forall i: nat
      ensures i in t.stopAt <==> i < |t.rt.machines| && t.mgr.taskInProc != Some(i)
    {
      StopKeys(c, s, step, i);
    }
    forall i | i in t.stopAt
      ensures i < |t.rt.machines| && StopKnown(t.rt.machines[i], t.stopAt[i])
    {
      if i in s.stopAt && t.stopAt[i] == s.stopAt[i] {
        TaskKeeps(c, s, step, i);
        StopStays(s.rt.machines[i], t.rt.machines[i], s.stopAt[i]);
      } else {
        NewStopKnown(c, s, step, i);
      }
    }
  }

  lemma NewStopKnown(c: Config, s: Sys, step: SysStep, i: nat)
    requires Basic(c, s) && Enabled(c, s, step)
    requires i in Apply(c, s, step).stopAt && !(i in s.stopAt && Apply(c, s, step).stopAt[i] == s.stopAt[i])
    ensures var t := Apply(c, s, step); i < |t.rt.machines| && StopKnown(t.rt.machines[i], t.stopAt[i])
  {
    hide R.Handled, TaskTables, R.PostAll, M.Perform, R.AllCovered, R.WellFormed, JobsSound, StopsSound, ManagerSound;
    assert (step.EndCommand? || step.Disconnect?) && Stopped(s, step) == Some(i);
    assert TaskInv(s.rt.machines[i]) && |s.rt.machines[i].arrivals| >= 1;
  }

  /** Where the jobs, the fulfilled promises and the expired machines after a step come from. */
  lemma JobsMove(c: Config, s: Sys, step: SysStep)
    requires R.WellFormed(s.rt) && ManagerSound(s) && Enabled(c, s, step)
    ensures var t := Apply(c, s, step);
            && (forall j | j in t.rt.jobs :: j in s.rt.jobs || (j.Run? && j.machine < |s.rt.machines|) || j == Null
                                             || (step.DestructBegins? && j == Signal(step.i)))
            && (forall p | p in t.rt.signalled :: p in s.rt.signalled || Signal(p) in s.rt.jobs)
            && (forall i | i in t.rt.expired :: i in s.rt.expired || i in s.rt.signalled)
            && t.leaving == s.leaving + (if step.DestructBegins? then {step.i} else {})
            && s.rt.signalled <= t.rt.signalled
  {
    hide TaskInv, R.Handled, TaskTables, M.Perform, M.Owned, TaskApply, NewTask, Started, R.Sound, R.PostAll;
    if step.WorkerPops? {
      PostAllJobs(s.rt.jobs, s.rt.worker.machine, R.HandledScheds(s.rt.machines[s.rt.worker.machine]));
    }
  }

  lemma JobsStaySound(c: Config, s: Sys, step: SysStep)
    requires Basic(c, s) && Enabled(c, s, step)
    ensures JobsSound(Apply(c, s, step))
  {
    hide TaskInv, TasksSound, R.WellFormed, R.AllCovered, StopsSound, ManagerSound, M.Owned, Apply, Enabled;
    var t := Apply(c, s, step);
    JobsMove(c, s, step);
    CountMoves(c, s, step);
    forall i | i in t.leaving
      ensures i in t.stopAt && t.posting != Some(i)
    {
      LeavingStays(c, s, step, i);
    }
  }

  lemma LeavingStays(c: Config, s: Sys, step: SysStep, i: nat)
    requires Basic(c, s) && Enabled(c, s, step) && i in Apply(c, s, step).leaving
    ensures i in Apply(c, s, step).stopAt && Apply(c, s, step).posting != Some(i)
  {
    hide TaskInv, TasksSound, R.WellFormed, R.AllCovered, M.Owned, R.Handled, R.PostAll, TaskTables, M.Perform,
         TaskApply, NewTask;
    if ManagerStep(step) {
      ManagerMoves(s, step);
    }
  }

  lemma {:induction false} PostAllJobs(jobs: seq<Job>, i: nat, scheds: seq<Sched>)
    ensures forall j | j in R.PostAll(jobs, i, scheds) :: j in jobs || j == Run(i)
    ensures jobs <= R.PostAll(jobs, i, scheds)
    decreases |scheds|
  {
    if scheds != [] {
      PostAllJobs(if scheds[0].Outer? then jobs + [Run(i)] else jobs, i, scheds[1..]);
    }
  }

  lemma BasicStep(c: Config, s: Sys, step: SysStep)
    requires c.cap >= 1 && Sorted(c.table) && Basic(c, s) && Enabled(c, s, step)
    ensures Basic(c, Apply(c, s, step))
  {
    hide Apply, Enabled, TasksSound, StopsSound, ManagerSound, JobsSound, R.WellFormed, R.AllCovered;
    RuntimeSound(c, s, step);
    TasksStaySound(c, s, step);
    StopsStaySound(c, s, step);
    ManagerStaysSound(c, s, step);
    JobsStaySound(c, s, step);
  }

  /** The destructor's promise waits for the stop, however many threads are in flight: the destructor begins when
      nobody else holds the task. */
  ghost predicate DestructorsWait(c: Config, s: Sys) {
    forall i | i in s.leaving && i in s.stopAt && i < |s.rt.machines| ::
      && R.Behind(c.cap, s.rt, i, s.stopAt[i], R.PromiseOf(i))
      && (i in s.rt.signalled ==> s.stopAt[i] <= s.rt.machines[i].popped)
  }

  lemma {:induction false} BehindExec(cap: nat, rt: R.Runtime<TaskData>, steps: seq<R.Step<TaskData>>, i: nat,
                                      target: nat, marker: R.Marker)
    requires cap >= 1 && R.WellFormed(rt) && R.AllEnabled(cap, rt, steps) && i < |rt.machines|
    requires target <= |rt.machines[i].arrivals| && !R.Stops(marker, Run(i))
    requires target <= rt.machines[i].popped || i !in R.Exec(cap, rt, steps).expired
    requires R.Behind(cap, rt, i, target, marker)
    ensures i < |R.Exec(cap, rt, steps).machines| && R.Behind(cap, R.Exec(cap, rt, steps), i, target, marker)
    decreases |steps|
  {
    if steps != [] {
      var next := R.Apply(cap, rt, steps[0]);
      R.ExpiredStays(cap, rt, steps, i);
      R.BehindStep(cap, rt, steps[0], i, target, marker);
      R.MachineStep(cap, rt, steps[0], i);
      R.WellFormedStep(cap, rt, steps[0]);
      BehindExec(cap, next, steps[1..], i, target, marker);
    }
  }

  /** A stop that is behind a marker stays so under every system step. */
  lemma BehindStays(c: Config, s: Sys, step: SysStep, i: nat, target: nat, marker: R.Marker)
    requires c.cap >= 1 && R.WellFormed(s.rt) && Enabled(c, s, step) && i < |s.rt.machines|
    requires target <= |s.rt.machines[i].arrivals| && !R.Stops(marker, Run(i))
    requires target <= s.rt.machines[i].popped || i !in Apply(c, s, step).rt.expired
    requires R.Behind(c.cap, s.rt, i, target, marker)
    ensures i < |Apply(c, s, step).rt.machines| && R.Behind(c.cap, Apply(c, s, step).rt, i, target, marker)
  {
    hide Apply, Lower, Enabled, R.Behind, R.WellFormed;
    Simulates(c, s, step);
    BehindExec(c.cap, s.rt, Lower(c, s, step), i, target, marker);
  }

  /** The stop is not lost when a task expires: expiry comes after the destructor's wait. */
  lemma ExpiredIsDone(c: Config, s: Sys, step: SysStep, i: nat)
    requires Basic(c, s) && DestructorsWait(c, s) && Enabled(c, s, step) && i in s.stopAt
    requires i in Apply(c, s, step).rt.expired
    ensures s.stopAt[i] <= s.rt.machines[i].popped
  {
    hide Apply, Enabled, TasksSound, M.Owned, R.Behind;
    JobsMove(c, s, step);
    assert i in s.rt.signalled && i in s.leaving;
  }

  lemma StopAtMoves(c: Config, s: Sys, step: SysStep, i: nat)
    requires Basic(c, s) && Enabled(c, s, step) && i in Apply(c, s, step).stopAt
    ensures var t := Apply(c, s, step);
            && (t.posting != Some(i) ==> i in s.stopAt && t.stopAt[i] == s.stopAt[i])
            && (s.posting == Some(i) && t.posting != Some(i) ==> step.ManagerPosts?)
            && (i in s.stopAt ==> t.stopAt[i] == s.stopAt[i])
  {
    hide TaskInv, R.Handled, TaskTables, R.PostAll, M.Perform, TasksSound, R.WellFormed, R.AllCovered, M.Owned,
         StopKnown;
    if ManagerStep(step) {
      ManagerMoves(s, step);
    }
  }

  /** The destructor starts with the stop posted: its promise comes after the stop's run. */
  lemma DestructorQueues(c: Config, s: Sys, i: nat)
    requires c.cap >= 1 && Basic(c, s) && Enabled(c, s, DestructBegins(i))
    ensures R.Behind(c.cap, Apply(c, s, DestructBegins(i)).rt, i, s.stopAt[i], R.PromiseOf(i))
  {
    hide TaskInv, TasksSound, ManagerSound, R.WellFormed;
    var jobs := s.rt.jobs;
    assert Signal(i) !in jobs && R.Covered(s.rt, i) && StopKnown(s.rt.machines[i], s.stopAt[i]);
    R.AheadSnoc(jobs, Null, R.Never, i);
    R.PromiseQueued(jobs + [Null], i, i);
    R.Times(R.Ahead(jobs, R.Never, i), 0, c.cap);
  }

  lemma SignalledMoves(c: Config, s: Sys, step: SysStep, i: nat)
    requires c.cap >= 1 && Basic(c, s) && DestructorsWait(c, s) && Enabled(c, s, step)
    requires i in s.leaving && i in Apply(c, s, step).rt.signalled
    ensures i in s.stopAt && s.stopAt[i] <= s.rt.machines[i].popped
  {
    hide TaskInv, M.Owned, R.AllCovered, Apply, ManagerSound, R.Sound;
    assert i in s.stopAt && StopKnown(s.rt.machines[i], s.stopAt[i]);
    if i !in s.rt.signalled {
      SignalTaken(c, s, step, i);
      R.BehindStep(c.cap, s.rt, R.Take, i, s.stopAt[i], R.PromiseOf(i));
    }
  }

  lemma SignalTaken(c: Config, s: Sys, step: SysStep, i: nat)
    requires Enabled(c, s, step) && i !in s.rt.signalled && i in Apply(c, s, step).rt.signalled
    ensures step.WorkerTakes? && s.rt.jobs[0] == Signal(i)
  {
    hide TaskInv, R.Handled, TaskTables, R.PostAll, M.Perform, M.Owned, TaskApply, NewTask;
  }

  lemma DestructorsStillWait(c: Config, s: Sys, step: SysStep)
    requires c.cap >= 1 && Basic(c, s) && DestructorsWait(c, s) && Enabled(c, s, step)
    ensures DestructorsWait(c, Apply(c, s, step))
  {
    hide Apply, Enabled, TasksSound, M.Owned, R.Behind, R.WellFormed, R.AllCovered, ManagerSound;
    var t := Apply(c, s, step);
    JobsMove(c, s, step);
    forall i | i in t.leaving && i in t.stopAt && i < |t.rt.machines|
      ensures R.Behind(c.cap, t.rt, i, t.stopAt[i], R.PromiseOf(i))
      ensures i in t.rt.signalled ==> t.stopAt[i] <= t.rt.machines[i].popped
    {
      StopAtMoves(c, s, step, i);
      LeavingStays(c, s, step, i);
      if i in s.leaving {
        if i in t.rt.expired {
          ExpiredIsDone(c, s, step, i);
        }
        assert StopKnown(s.rt.machines[i], s.stopAt[i]);
        BehindStays(c, s, step, i, s.stopAt[i], R.PromiseOf(i));
        if i in t.rt.signalled {
          SignalledMoves(c, s, step, i);
          TaskKeeps(c, s, step, i);
        }
      } else {
        NewlyLeaving(c, s, step, i);
        DestructorQueues(c, s, i);
      }
    }
  }

  lemma NewlyLeaving(c: Config, s: Sys, step: SysStep, i: nat)
    requires Basic(c, s) && Enabled(c, s, step) && i !in s.leaving && i in Apply(c, s, step).leaving
    ensures step == DestructBegins(i) && i !in Apply(c, s, step).rt.signalled
  {
    hide TaskInv, R.Handled, TaskTables, R.PostAll, M.Perform, M.Owned, TaskApply, NewTask;
  }

  // ------------------------------------------------------------------------------------------
  // What holds when at most `cap` threads are in flight on a machine.
  // ------------------------------------------------------------------------------------------

  /** The stop of task `i` is handled before the worker reaches a run of a later task. */
  ghost predicate StopsFirst(c: Config, s: Sys) {
    forall i | i in s.stopAt && i < |s.rt.machines| && s.posting != Some(i) ::
      R.Behind(c.cap, s.rt, i, s.stopAt[i], R.RunAfter(i))
  }

  ghost predicate Begun(s: Sys, j: nat)
    requires j < |s.rt.machines|
  {
    s.rt.machines[j].popped > 0 || (s.rt.worker.Running? && s.rt.worker.machine == j)
  }

  /** Once a task is underway, the stops of all earlier tasks have been handled. */
  ghost predicate Ordered(s: Sys) {
    forall i: nat, j: nat | i < j < |s.rt.machines| && Begun(s, j) && i in s.stopAt ::
      s.stopAt[i] <= s.rt.machines[i].popped
  }

  ghost predicate Guarded(c: Config, s: Sys) { StopsFirst(c, s) && Ordered(s) }

  lemma BehindLess(cap: nat, rt: R.Runtime<TaskData>, i: nat, target: nat, less: nat, marker: R.Marker)
    requires i < |rt.machines| && less <= target && R.Behind(cap, rt, i, target, marker)
    ensures R.Behind(cap, rt, i, less, marker)
  {
  }

  /** A stop just posted is ahead of everything of later tasks: there are no later tasks yet. */
  lemma StopPosted(c: Config, s: Sys, i: nat)
    requires 1 <= c.threads <= c.cap && Basic(c, s) && Enabled(c, s, ManagerPosts)
    requires s.posting == Some(i) && i in s.stopAt
    ensures R.Behind(c.cap, Apply(c, s, ManagerPosts).rt, i, s.stopAt[i], R.RunAfter(i))
  {
    assert i !in s.rt.expired;
    assert R.Clear(s.rt.jobs, R.RunAfter(i));
    R.PostedIsBehind(c.cap, s.rt, i, R.RunAfter(i));
    BehindLess(c.cap, Apply(c, s, ManagerPosts).rt, i, |s.rt.machines[i].arrivals|, s.stopAt[i], R.RunAfter(i));
  }

  lemma StopsStayFirst(c: Config, s: Sys, step: SysStep)
    requires 1 <= c.threads <= c.cap && Basic(c, s) && DestructorsWait(c, s) && Guarded(c, s) && Enabled(c, s, step)
    ensures StopsFirst(c, Apply(c, s, step))
  {
    hide Apply, Enabled, TasksSound, M.Owned, R.Behind, R.WellFormed, R.AllCovered, JobsSound, ManagerSound, Ordered,
         DestructorsWait;
    var t := Apply(c, s, step);
    forall i | i in t.stopAt && i < |t.rt.machines| && t.posting != Some(i)
      ensures R.Behind(c.cap, t.rt, i, t.stopAt[i], R.RunAfter(i))
    {
      StopAtMoves(c, s, step, i);
      if s.posting == Some(i) {
        StopPosted(c, s, i);
      } else {
        if i in t.rt.expired {
          ExpiredIsDone(c, s, step, i);
        }
        assert StopKnown(s.rt.machines[i], s.stopAt[i]);
        BehindStays(c, s, step, i, s.stopAt[i], R.RunAfter(i));
      }
    }
  }

  /** When the worker starts a run of task `j`, nothing of an earlier stop is left. */
  lemma RunOfLaterTask(c: Config, s: Sys, i: nat, j: nat)
    requires i < j < |s.rt.machines| && s.rt.jobs != [] && s.rt.jobs[0] == Run(j)
    requires c.cap >= 1 && Basic(c, s) && DestructorsWait(c, s) && Guarded(c, s) && Enabled(c, s, WorkerTakes)
    ensures i in s.stopAt && s.stopAt[i] <= s.rt.machines[i].popped
  {
    hide R.Apply, TasksSound, M.Owned, TaskInv, Ordered;
    assert s.mgr.taskInProc != Some(i) by {
      ManagerMoves(s, Disconnect(None));
    }
    assert i in s.stopAt && s.posting != Some(i) && StopKnown(s.rt.machines[i], s.stopAt[i]);
    if i !in s.rt.expired {
      R.BehindStep(c.cap, s.rt, R.Take, i, s.stopAt[i], R.RunAfter(i));
    }
  }

  lemma BegunMoves(c: Config, s: Sys, step: SysStep, j: nat)
    requires Basic(c, s) && Enabled(c, s, step) && j < |Apply(c, s, step).rt.machines| && Begun(Apply(c, s, step), j)
    ensures j < |s.rt.machines|
    ensures Begun(s, j) || (step.WorkerTakes? && s.rt.jobs != [] && s.rt.jobs[0] == Run(j))
  {
    hide TaskInv, M.Owned, Apply, TasksSound, ManagerSound, JobsSound, StopsSound, R.AllCovered;
    WorkerMoves(c, s, step);
    if step.WorkerPops? {
      PopIs(c, s);
    } else if j < |s.rt.machines| {
      TaskKeeps(c, s, step, j);
    }
  }

  /** The worker turns to a machine only by taking its run, and only to one that was there before. */
  lemma WorkerMoves(c: Config, s: Sys, step: SysStep)
    requires R.WellFormed(s.rt) && Enabled(c, s, step)
    ensures var w := Apply(c, s, step).rt.worker;
            w.Running? ==>
              w.machine < |s.rt.machines|
              && ((s.rt.worker.Running? && s.rt.worker.machine == w.machine)
                  || (step.WorkerTakes? && s.rt.jobs[0] == Run(w.machine)))
    ensures forall j | |s.rt.machines| <= j < |Apply(c, s, step).rt.machines| ::
              Apply(c, s, step).rt.machines[j].popped == 0
  {
    hide TaskInv, R.Handled, TaskTables, R.PostAll, M.Perform, M.Owned, TaskApply, NewTask, R.Sound;
  }

  lemma StaysOrdered(c: Config, s: Sys, step: SysStep)
    requires 1 <= c.threads <= c.cap && Basic(c, s) && DestructorsWait(c, s) && Guarded(c, s) && Enabled(c, s, step)
    ensures Ordered(Apply(c, s, step))
  {
    hide Apply, Enabled, TasksSound, M.Owned, R.Behind, R.WellFormed, R.AllCovered, JobsSound, StopsFirst,
         DestructorsWait, Begun;
    var t := Apply(c, s, step);
    forall i: nat, j: nat | i < j < |t.rt.machines| && Begun(t, j) && i in t.stopAt
      ensures t.stopAt[i] <= t.rt.machines[i].popped
    {
      BegunMoves(c, s, step, j);
      EarlierStopped(s, i, j);
      StopAtMoves(c, s, step, i);
      TaskKeeps(c, s, step, i);
      if !Begun(s, j) {
        RunOfLaterTask(c, s, i, j);
      }
    }
  }

  lemma EarlierStopped(s: Sys, i: nat, j: nat)
    requires ManagerSound(s) && StopsSound(s) && i < j < |s.rt.machines|
    ensures i in s.stopAt
  {
    ManagerMoves(s, Disconnect(None));
  }

  lemma GuardedStep(c: Config, s: Sys, step: SysStep)
    requires 1 <= c.threads <= c.cap && Basic(c, s) && DestructorsWait(c, s) && Guarded(c, s) && Enabled(c, s, step)
    ensures Guarded(c, Apply(c, s, step))
  {
    hide Apply, Enabled, Basic, StopsFirst, Ordered, DestructorsWait;
    StopsStayFirst(c, s, step);
    StaysOrdered(c, s, step);
  }

  // ------------------------------------------------------------------------------------------
  // The trace.
  // ------------------------------------------------------------------------------------------

  /** Handling an event adds nothing, one effect that is no restore, or the closing pair; an ended task adds nothing. */
  lemma EffectsGrow(m: Task)
    requires TaskInv(m) && m.Pending() > 0
    ensures R.Handled(m).user.effects == m.user.effects + NewEffects(m)
    ensures |NewEffects(m)| <= 2 && forall k | 0 <= k < |NewEffects(m)| - 1 :: NewEffects(m)[k] != Restore
    ensures NewEffects(m) != [] ==> m.state != S_END
  {
    HandledIs(m);
    var e := m.arrivals[m.popped];
    var o := TaskEffect(m.state, m.user, e);
    hide TaskInv, R.Handled, TaskTables, StartIndex;
    var extra := NewEffects(m);
    if m.state == S_INIT && e == E_START {
      var k := if m.user.sensorSteps < SUBSCRIBE_CALLS then m.user.sensorSteps else SUBSCRIBE_CALLS;
      assert o.user.effects == m.user.effects + [Subscribe(k)];
      assert extra == [Subscribe(k)];
    } else if m.state == S_INCREASING && e == E_INCREASE {
      TickGrows(m.user);
    } else if m.state != S_INCREASING && TaskNext(m.state, e) == S_INCREASING {
      BeginGrows(m.user);
    } else if m.state != S_END && TaskNext(m.state, e) == S_END {
      assert o.user.effects == m.user.effects + [Unsubscribe, Restore];
      assert extra == [Unsubscribe, Restore];
    } else {
      assert extra == [];
    }
  }

  lemma TickGrows(d: TaskData)
    ensures var r := DoIncreaseBrightness(d);
            r.effects == d.effects || exists x :: r.effects == d.effects + [Override(x)]
  {
    if d.index < |d.table| && d.table[d.index] <= d.max {
      assert DoIncreaseBrightness(d).effects == d.effects + [Override(d.table[d.index])];
    }
  }

  lemma BeginGrows(d: TaskData)
    ensures var r := BeginIncreaseBrightness(d).user;
            r.effects == d.effects || exists x :: r.effects == d.effects + [Override(x)]
  {
    var placed := d.(currentBrightness := d.device, index := StartIndex(d.table, d.device));
    TickGrows(placed);
  }

  ghost predicate Traced(s: Sys) {
    && (forall q | 0 <= q < |s.trace| :: s.trace[q].task < |s.rt.machines|)
    && (forall i | 0 <= i < |s.rt.machines| :: Project(s.trace, i) == s.rt.machines[i].user.effects)
    && NoInterleaving(s.trace)
  }

  lemma {:induction false} ProjectForeign(trace: seq<Tagged>, i: nat)
    requires forall q | 0 <= q < |trace| :: trace[q].task != i
    ensures Project(trace, i) == []
    decreases |trace|
  {
    if trace != [] {
      ProjectForeign(trace[..|trace| - 1], i);
    }
  }

  /** The trace and the effects of tasks move only when the worker handles an event. */
  lemma TracedStays(c: Config, s: Sys, step: SysStep)
    requires Sorted(c.table) && Basic(c, s) && Traced(s) && Enabled(c, s, step) && !step.WorkerPops?
    ensures Traced(Apply(c, s, step))
  {
    hide TaskInv, M.Owned, R.WellFormed, R.AllCovered, JobsSound, StopsSound, NoInterleaving, Started, NewTask, Enabled;
    var t := Apply(c, s, step);
    assert t.trace == s.trace by { SameTrace(c, s, step); }
    hide Apply;
    CountMoves(c, s, step);
    forall i | 0 <= i < |t.rt.machines|
      ensures Project(t.trace, i) == t.rt.machines[i].user.effects
    {
      if i < |s.rt.machines| {
        TaskKeeps(c, s, step, i);
      } else {
        NewTaskSound(c, s, step);
        ProjectForeign(s.trace, i);
      }
    }
  }

  lemma SameTrace(c: Config, s: Sys, step: SysStep)
    requires Enabled(c, s, step) && !step.WorkerPops?
    ensures Apply(c, s, step).trace == s.trace
  {
    hide R.Handled, TaskTables, R.PostAll, M.Perform, TaskApply, NewTask, R.Apply, R.Enabled;
  }

  /** A task that touched anything has handled an event. */
  lemma EffectsMeanBegun(m: Task)
    requires TaskInv(m) && m.user.effects != []
    ensures m.popped > 0
  {
    assert m.state != S_INIT;
    var handled := m.arrivals[..m.popped];
    assert |handled| == 0 ==> handled == [];
  }

  /** What the trace may be continued with. */
  lemma Continues(trace: seq<Tagged>, j: nat, extra: seq<Effect>)
    requires NoInterleaving(trace)
    requires extra != [] ==> forall p | 0 <= p < |trace| :: trace[p].task <= j && trace[p] != Tagged(j, Restore)
    requires extra != [] ==> forall i: nat | i < j :: Tagged(i, Restore) in trace
    requires forall k | 0 <= k < |extra| - 1 :: extra[k] != Restore
    ensures NoInterleaving(trace + Tag(j, extra))
  {
    var whole := trace + Tag(j, extra);
    forall q, i: nat | 0 <= q < |whole| && i < whole[q].task
      ensures RestoredBefore(whole, i, q)
    {
      if q < |trace| {
        assert RestoredBefore(trace, i, q);
        var p :| 0 <= p < q && trace[p] == Tagged(i, Restore);
        assert whole[p] == Tagged(i, Restore);
      } else {
        assert Tagged(i, Restore) in trace;
        var p :| 0 <= p < |trace| && trace[p] == Tagged(i, Restore);
        assert whole[p] == Tagged(i, Restore);
      }
    }
  }

  lemma ClosedHasRestore(effects: seq<Effect>)
    requires ClosedBlock(effects)
    ensures Restore in effects
  {
  }

  /** A pop, seen from trace and effects. */
  lemma PopIs(c: Config, s: Sys)
    requires Basic(c, s) && Enabled(c, s, WorkerPops)
    ensures var t := Apply(c, s, WorkerPops);
            var j := s.rt.worker.machine;
            && j < |s.rt.machines| && |t.rt.machines| == |s.rt.machines| && Begun(s, j)
            && s.rt.machines[j].Pending() > 0
            && t.trace == s.trace + Tag(j, NewEffects(s.rt.machines[j]))
            && t.rt.machines[j].user.effects == s.rt.machines[j].user.effects + NewEffects(s.rt.machines[j])
            && forall i | 0 <= i < |s.rt.machines| && i != j :: t.rt.machines[i] == s.rt.machines[i]
  {
    var m := s.rt.machines[s.rt.worker.machine];
    assert TaskInv(m);
    EffectsGrow(m);
    hide TaskInv, R.Handled, NewEffects, M.Owned, R.AllCovered, JobsSound, R.PostAll, StopsSound, ManagerSound,
         R.WellFormed;
  }

  lemma ProjectedPop(c: Config, s: Sys)
    requires Basic(c, s) && Traced(s) && Enabled(c, s, WorkerPops)
    ensures var t := Apply(c, s, WorkerPops);
            && (forall q | 0 <= q < |t.trace| :: t.trace[q].task < |t.rt.machines|)
            && (forall i | 0 <= i < |t.rt.machines| :: Project(t.trace, i) == t.rt.machines[i].user.effects)
  {
    var j := s.rt.worker.machine;
    hide TaskInv, NewEffects, Basic, Apply, Enabled, NoInterleaving, R.Handled, Project;
    PopIs(c, s);
    var t := Apply(c, s, WorkerPops);
    forall i | 0 <= i < |t.rt.machines|
      ensures Project(t.trace, i) == t.rt.machines[i].user.effects
    {
      ProjectTag(s.trace, j, NewEffects(s.rt.machines[j]), i);
    }
  }

  lemma TracedPop(c: Config, s: Sys)
    requires 1 <= c.threads <= c.cap && Basic(c, s) && Guarded(c, s) && Traced(s) && Enabled(c, s, WorkerPops)
    ensures Traced(Apply(c, s, WorkerPops))
  {
    var j := s.rt.worker.machine;
    hide TaskInv, NewEffects, Basic, Guarded, Apply, Enabled, NoInterleaving, R.Handled, Project, Tag;
    PopIs(c, s);
    ProjectedPop(c, s);
    TraceAllows(c, s, j);
    Continues(s.trace, j, NewEffects(s.rt.machines[j]));
  }

  /** The trace so far lets the running task act, if it is going to. */
  lemma TraceAllows(c: Config, s: Sys, j: nat)
    requires Basic(c, s) && Guarded(c, s) && Traced(s) && j < |s.rt.machines| && Begun(s, j)
             && s.rt.machines[j].Pending() > 0
    ensures var extra := NewEffects(s.rt.machines[j]);
            && (extra != [] ==> forall p | 0 <= p < |s.trace| ::
                  s.trace[p].task <= j && s.trace[p] != Tagged(j, Restore))
            && (extra != [] ==> forall i: nat | i < j :: Tagged(i, Restore) in s.trace)
            && (forall k | 0 <= k < |extra| - 1 :: extra[k] != Restore)
  {
    hide TaskInv, NewEffects, Guarded, NoInterleaving, R.Handled, StopsSound, ManagerSound, JobsSound, R.WellFormed,
         R.AllCovered;
    assert TaskInv(s.rt.machines[j]);
    EffectsGrow(s.rt.machines[j]);
    if NewEffects(s.rt.machines[j]) != [] {
      forall p | 0 <= p < |s.trace|
        ensures s.trace[p].task <= j && s.trace[p] != Tagged(j, Restore)
      {
        LaterIsQuiet(c, s, j, p);
      }
      forall i: nat | i < j
        ensures Tagged(i, Restore) in s.trace
      {
        EarlierIsRestored(c, s, i, j);
      }
    }
  }

  /** If a task touched anything, all earlier ones have ended. */
  lemma EarlierEnded(c: Config, s: Sys, j: nat, k: nat)
    requires Basic(c, s) && Guarded(c, s) && j < k < |s.rt.machines| && s.rt.machines[k].user.effects != []
    ensures s.rt.machines[j].state == S_END
  {
    hide TaskInv, M.Owned, R.AllCovered, R.WellFormed, JobsSound, StopsFirst, DestructorsWait;
    assert TaskInv(s.rt.machines[k]) && TaskInv(s.rt.machines[j]);
    EffectsMeanBegun(s.rt.machines[k]);
    assert Begun(s, k);
    EarlierStopped(s, j, k);
    hide ManagerSound, Begun, ClosedBlock;
    StopIsSomewhere(s.rt.machines[j], s.stopAt[j]);
  }

  lemma OpenHasNoRestore(effects: seq<Effect>)
    requires effects == [] || OpenBlock(effects)
    ensures Restore !in effects
  {
  }

  /** While task `j` can still act, no later task has touched anything, and `j` has not been restored. */
  lemma LaterIsQuiet(c: Config, s: Sys, j: nat, p: nat)
    requires Basic(c, s) && Guarded(c, s) && Traced(s) && j < |s.rt.machines| && s.rt.machines[j].state != S_END
    requires p < |s.trace|
    ensures s.trace[p].task <= j && s.trace[p] != Tagged(j, Restore)
  {
    var k := s.trace[p].task;
    ProjectMember(s.trace, k, s.trace[p].effect);
    assert s.trace[p] == Tagged(k, s.trace[p].effect) && s.trace[p] in s.trace;
    assert s.trace[p].effect in s.rt.machines[k].user.effects;
    assert TaskInv(s.rt.machines[j]);
    EffectsAreBracketed(s.rt.machines[j]);
    OpenHasNoRestore(s.rt.machines[j].user.effects);
    hide Guarded, TaskInv, Basic;
    if k > j {
      EarlierEnded(c, s, j, k);
    }
  }

  lemma EarlierIsRestored(c: Config, s: Sys, i: nat, j: nat)
    requires Basic(c, s) && Guarded(c, s) && Traced(s) && i < j < |s.rt.machines| && Begun(s, j)
    ensures Tagged(i, Restore) in s.trace && s.rt.machines[i].state == S_END
            && ClosedBlock(s.rt.machines[i].user.effects)
  {
    EarlierStopped(s, i, j);
    assert TaskInv(s.rt.machines[i]);
    StopIsSomewhere(s.rt.machines[i], s.stopAt[i]);
    ClosedHasRestore(s.rt.machines[i].user.effects);
    ProjectMember(s.trace, i, Restore);
  }

  // ------------------------------------------------------------------------------------------
  // The theorems.
  // ------------------------------------------------------------------------------------------

  lemma {:induction false} BasicAlways(c: Config, s: Sys, steps: seq<SysStep>)
    requires c.cap >= 1 && Sorted(c.table) && Basic(c, s) && DestructorsWait(c, s) && AllEnabled(c, s, steps)
    ensures Basic(c, Exec(c, s, steps)) && DestructorsWait(c, Exec(c, s, steps))
    decreases |steps|
  {
    if steps != [] {
      hide Basic, DestructorsWait, Apply, Enabled;
      BasicStep(c, s, steps[0]);
      DestructorsStillWait(c, s, steps[0]);
      BasicAlways(c, Apply(c, s, steps[0]), steps[1..]);
    }
  }

  lemma {:induction false} GuardedAlways(c: Config, s: Sys, steps: seq<SysStep>)
    requires 1 <= c.threads <= c.cap && Sorted(c.table) && AllEnabled(c, s, steps)
    requires Basic(c, s) && DestructorsWait(c, s) && Guarded(c, s) && Traced(s)
    ensures var t := Exec(c, s, steps); Guarded(c, t) && Traced(t)
    decreases |steps|
  {
    if steps != [] {
      hide Basic, DestructorsWait, Apply, Enabled, Guarded, Traced;
      BasicStep(c, s, steps[0]);
      DestructorsStillWait(c, s, steps[0]);
      GuardedStep(c, s, steps[0]);
      if steps[0].WorkerPops? {
        TracedPop(c, s);
      } else {
        TracedStays(c, s, steps[0]);
      }
      GuardedAlways(c, Apply(c, s, steps[0]), steps[1..]);
    }
  }

  lemma ReachableSound(c: Config, s: Sys)
    requires c.cap >= 1 && Sorted(c.table) && Reachable(c, s)
    ensures Basic(c, s) && DestructorsWait(c, s)
    ensures 1 <= c.threads <= c.cap ==> Guarded(c, s) && Traced(s)
  {
    var steps :| AllEnabled(c, Init(), steps) && s == Exec(c, Init(), steps);
    InitBasic(c);
    BasicAlways(c, Init(), steps);
    if 1 <= c.threads <= c.cap {
      GuardedAlways(c, Init(), steps);
    }
  }

  /**
   Non-interference: in every reachable state of the system the trace of sensor and display effects is one block
   per task, in task order; no task acts after its restore, and none before the restore of every earlier one;
   and each block is what that task's ramp prescribes.
   */
  lemma BrightnessNeverInterleaves(c: Config, s: Sys)
    requires 1 <= c.threads <= c.cap && Sorted(c.table) && Reachable(c, s)
    ensures NoInterleaving(s.trace)
    ensures forall i | 0 <= i < |s.rt.machines| ::
              var d := s.rt.machines[i].user;
              && Project(s.trace, i) == d.effects
              && (d.effects == [] || OpenBlock(d.effects) || ClosedBlock(d.effects))
              && Shown(d.effects) <= Ramp(d.table, d.currentBrightness, d.max)
  {
    ReachableSound(c, s);
    forall i | 0 <= i < |s.rt.machines|
      ensures var d := s.rt.machines[i].user;
              && (d.effects == [] || OpenBlock(d.effects) || ClosedBlock(d.effects))
              && Shown(d.effects) <= Ramp(d.table, d.currentBrightness, d.max)
    {
      assert TaskInv(s.rt.machines[i]);
      EffectsAreBracketed(s.rt.machines[i]);
    }
  }

  /** The parameters of a step that begins a brightness task and gets one. */
  ghost function BegunWith(c: Config, s: Sys, step: SysStep): seq<(uint32, uint32)>
    requires Enabled(c, s, step)
  {
    if step.BeginCommand? && |Apply(c, s, step).rt.machines| > |s.rt.machines|
    then [(step.intervalParam, step.maxParam)] else []
  }

  /** The parameters of the begins that handed out a brightness task, in order. */
  ghost function MadeWith(c: Config, s: Sys, steps: seq<SysStep>): seq<(uint32, uint32)>
    requires AllEnabled(c, s, steps)
    decreases |steps|
  {
    if steps == [] then [] else BegunWith(c, s, steps[0]) + MadeWith(c, Apply(c, s, steps[0]), steps[1..])
  }

  ghost predicate Configured(c: Config, s: Sys, params: seq<(uint32, uint32)>) {
    && |params| == |s.rt.machines|
    && forall i | 0 <= i < |params| :: FromParams(s.rt.machines[i].user, c.table, params[i].0, params[i].1)
  }

  /** A step changes no brightness task's settings, and a new one has those its begin asked for. */
  lemma ConfiguredStep(c: Config, s: Sys, step: SysStep, params: seq<(uint32, uint32)>)
    requires Sorted(c.table) && Basic(c, s) && Enabled(c, s, step) && Configured(c, s, params)
    ensures Configured(c, Apply(c, s, step), params + BegunWith(c, s, step))
  {
    var t := Apply(c, s, step);
    if step.DestructBegins? {
      StopIsSomewhere(s.rt.machines[step.i], s.stopAt[step.i]);
    }
    forall i | 0 <= i < |s.rt.machines|
      ensures i < |t.rt.machines| && FromParams(t.rt.machines[i].user, c.table, params[i].0, params[i].1)
    {
      BasicHolds(c, s, i);
      hide Apply, Enabled, TaskInv, TaskApply, StepEnabled, Basic;
      TaskMoveIs(c, s, step, i);
      if TaskMove(s, step, i).Some? {
        SettingsStay(s.rt.machines[i], TaskMove(s, step, i).value);
      }
    }
    hide Apply, Enabled, Basic;
    CountMoves(c, s, step);
    NewSettings(c.table, step);
  }

  lemma NewSettings(table: seq<uint32>, step: SysStep)
    ensures step.BeginCommand? ==>
              FromParams(Started(NewTask(table, step.intervalParam, step.maxParam)).user, table, step.intervalParam,
                         step.maxParam)
  {
    hide TaskTables;
  }

  lemma {:induction false} ConfiguredAlways(c: Config, s: Sys, steps: seq<SysStep>, params: seq<(uint32, uint32)>)
    requires c.cap >= 1 && Sorted(c.table) && Basic(c, s) && AllEnabled(c, s, steps) && Configured(c, s, params)
    ensures Configured(c, Exec(c, s, steps), params + MadeWith(c, s, steps))
    decreases |steps|
  {
    hide Basic, Apply, Enabled, Configured, BegunWith, Sorted;
    if steps == [] {
      assert params + [] == params;
    } else {
      var next, more := Apply(c, s, steps[0]), BegunWith(c, s, steps[0]);
      BasicStep(c, s, steps[0]);
      ConfiguredStep(c, s, steps[0], params);
      ConfiguredAlways(c, next, steps[1..], params + more);
      assert params + more + MadeWith(c, next, steps[1..]) == params + (more + MadeWith(c, next, steps[1..]));
    }
  }

  /** However many threads there are, every brightness task of the system keeps what one keeps on its own, in terms
      of the parameters it was begun with. */
  lemma EveryTaskBehaves(c: Config, steps: seq<SysStep>, i: nat)
    requires c.cap >= 1 && Sorted(c.table) && AllEnabled(c, Init(), steps)
    ensures var s := Exec(c, Init(), steps);
            var params := MadeWith(c, Init(), steps);
            && |params| == |s.rt.machines|
            && (i < |params| ==> Behaves(s.rt.machines[i], c.table, params[i].0, params[i].1))
  {
    var s := Exec(c, Init(), steps);
    var params := MadeWith(c, Init(), steps);
    assert Reachable(c, s);
    ReachableSound(c, s);
    InitBasic(c);
    ConfiguredAlways(c, Init(), steps, []);
    assert [] + params == params;
    if i < |params| {
      BasicHolds(c, s, i);
      InvMeansBehaves(s.rt.machines[i], c.table, params[i].0, params[i].1);
    }
  }

  lemma BasicHolds(c: Config, s: Sys, i: nat)
    requires Basic(c, s) && i < |s.rt.machines|
    ensures TaskInv(s.rt.machines[i])
  {
  }

  /** However many threads there are: once its wait is over, a destructor finds its task in S_END; from then on no
      event makes it do anything. */
  lemma DestructorFindsEnd(c: Config, s: Sys, i: nat, e: uint32)
    requires c.cap >= 1 && Sorted(c.table) && Reachable(c, s) && i in s.rt.signalled
    ensures i < |s.rt.machines|
    ensures var m := s.rt.machines[i];
            && m.state == S_END && ClosedBlock(m.user.effects) && m.user.timers == map[]
            && NextState(m.table, m.state, e) == S_END && Process(m.table, m.state, m.user, e).user == m.user
            && Process(m.table, m.state, m.user, e).scheds == []
  {
    ReachableSound(c, s);
    assert i in s.leaving && i in s.stopAt && StopKnown(s.rt.machines[i], s.stopAt[i]) && TaskInv(s.rt.machines[i]);
    StopIsSomewhere(s.rt.machines[i], s.stopAt[i]);
    EffectsAreBracketed(s.rt.machines[i]);
    EndAbsorbs(s.rt.machines[i].user, e);
  }

  /** However many threads there are: when the pool is empty and no thread is underway, every stopped task has ended
      and given the display back, whether its machine is still there or not. */
  lemma QuiescentMeansRestored(c: Config, s: Sys, i: nat)
    requires c.cap >= 1 && Sorted(c.table) && Reachable(c, s) && R.Quiescent(s.rt)
    requires i < |s.rt.machines| && s.mgr.taskInProc != Some(i)
    ensures s.rt.machines[i].state == S_END && ClosedBlock(s.rt.machines[i].user.effects)
  {
    ReachableSound(c, s);
    assert i in s.stopAt && R.Covered(s.rt, i) && StopKnown(s.rt.machines[i], s.stopAt[i]) && TaskInv(s.rt.machines[i]);
    if i in s.rt.expired {
      assert i in s.rt.signalled && i in s.leaving;
    }
    StopIsSomewhere(s.rt.machines[i], s.stopAt[i]);
  }
}
