/**
 The whole service: the manager hands out one task after the other, every task has its machine, all machines share
 the one worker, and timers, light readings, posts, destructors and the worker interleave freely.
 */
module System {
  import opened Prelude
  import opened StateMachine
  import opened ThreadHandling
  import opened TaskModel
  import opened TaskRun
  import R = Runtime
  import M = Manager

  /** `cap` bounds the events of one run; `threads` bounds the threads that are between push and post of the
      same machine at the same time. */
  datatype Config = Config(cap: nat, threads: nat, table: seq<uint32>)

  datatype Tagged = Tagged(task: nat, effect: Effect)

  /**
   `posting` is the task whose event the manager's thread has pushed and not posted yet. `stopAt` remembers how many
   events a task had received when the manager's stop was pushed, `leaving` the tasks whose destructor waits
   or waited, `trace` every effect on sensor and display in the order of execution.
   */
  datatype Sys = Sys(rt: R.Runtime<TaskData>, mgr: M.State, posting: Option<nat>, stopAt: map<nat, nat>,
                     leaving: set<nat>, trace: seq<Tagged>)

  datatype SysStep =
    | BeginCommand(executor: Option<M.Executor>, acquired: bool, created: bool, intervalParam: uint32, maxParam: uint32)
    | EndCommand(executor: Option<M.Executor>)
    | Disconnect(executor: Option<M.Executor>)
    | ManagerPosts
    | OtherPosts(i: nat)
    | World(i: nat, step: TaskStep)   // timers, light readings, library answers
    | DestructBegins(i: nat)
    | WorkerTakes
    | WorkerPops
    | WorkerEnds
    | MachineGoes(i: nat)

  function Init(): Sys { Sys(R.Empty(), M.Fresh(), None, map[], {}, []) }

  function ManagerOp(step: SysStep): M.Op
    requires step.BeginCommand? || step.EndCommand? || step.Disconnect?
  {
    match step
    case BeginCommand(e, a, c, _, _) => M.DoCommand(e, M.BEGIN_SCREEN_BRIGHTNESS_INCREASE, a, c)
    case EndCommand(e) => M.DoCommand(e, M.END_SCREEN_BRIGHTNESS_INCREASE, true, true)
    case Disconnect(e) => M.DoDisconnect(e)
  }

  /** The task a manager operation stops, if it stops one. */
  function Stopped(s: Sys, step: SysStep): Option<nat>
    requires step.BeginCommand? || step.EndCommand? || step.Disconnect?
  {
    if M.Perform(s.mgr, ManagerOp(step)).taskInProc == None then s.mgr.taskInProc else None
  }

  predicate Outside(step: TaskStep) { step.Change? || step.Expires? || step.Deliver? || step.Light? }

  ghost predicate Enabled(c: Config, s: Sys, step: SysStep) {
    match step
    case BeginCommand(_, _, _, _, _) => s.posting == None && c.threads >= 1
    case EndCommand(_) => s.posting == None && StopFits(c, s, step)
    case Disconnect(_) => s.posting == None && StopFits(c, s, step)
    case ManagerPosts => s.posting.Some? && R.Enabled(c.cap, s.rt, R.PostRun(s.posting.value))
    case OtherPosts(i) =>
      i < |s.rt.machines| && s.rt.machines[i].inFlight > (if s.posting == Some(i) then 1 else 0)
    case World(i, ts) =>
      && i < |s.rt.machines| && Outside(ts) && StepEnabled(s.rt.machines[i], ts)
      && (i !in s.leaving || ts.Change?)
      && (ts.Deliver? || ts.Light? ==> s.rt.machines[i].inFlight < c.threads)
    case DestructBegins(i) =>
      && i < |s.rt.machines| && i in s.stopAt && s.posting != Some(i) && i !in s.leaving
      && s.rt.machines[i].inFlight == 0
    case WorkerTakes => R.Enabled(c.cap, s.rt, R.Take)
    case WorkerPops => R.Enabled(c.cap, s.rt, R.Pop)
    case WorkerEnds => R.Enabled(c.cap, s.rt, R.EndRun)
    case MachineGoes(i) => i in s.rt.signalled && R.Enabled(c.cap, s.rt, R.Expire(i))
  }

  ghost predicate StopFits(c: Config, s: Sys, step: SysStep)
    requires step.EndCommand? || step.Disconnect?
  {
    match Stopped(s, step)
    case None => true
    case Some(t) => t < |s.rt.machines| && s.rt.machines[t].inFlight < c.threads
  }

  function Tag(i: nat, effects: seq<Effect>): seq<Tagged> {
    seq(|effects|, k requires 0 <= k < |effects| => Tagged(i, effects[k]))
  }

  /** What handling the next event adds to a task's effects. */
  function NewEffects(m: Task): seq<Effect>
    requires m.Pending() > 0
  {
    var now := R.Handled(m).user.effects;
    if |m.user.effects| <= |now| then now[|m.user.effects|..] else []
  }

  function SetTask(s: Sys, i: nat, m: Task): Sys
    requires i < |s.rt.machines|
  {
    s.(rt := s.rt.(machines := s.rt.machines[i := m]))
  }

  ghost function Apply(c: Config, s: Sys, step: SysStep): Sys
    requires Enabled(c, s, step)
  {
    match step
    case BeginCommand(_, _, _, iv, mx) =>
      var mgr := M.Perform(s.mgr, ManagerOp(step));
      if mgr == s.mgr then s
      else s.(mgr := mgr, posting := Some(|s.rt.machines|),
              rt := s.rt.(machines := s.rt.machines + [Started(NewTask(c.table, iv, mx))]))
    case EndCommand(_) => ApplyStop(c, s, step)
    case Disconnect(_) => ApplyStop(c, s, step)
    case ManagerPosts => s.(posting := None, rt := R.Apply(c.cap, s.rt, R.PostRun(s.posting.value)))
    case OtherPosts(i) => s.(rt := R.Apply(c.cap, s.rt, R.PostRun(i)))
    case World(i, ts) => SetTask(s, i, TaskApply(s.rt.machines[i], ts))
    case DestructBegins(i) =>
      var m := s.rt.machines[i];
      var quiet := SetTask(s, i, m.(user := Shut(m.user)));
      quiet.(leaving := s.leaving + {i}, rt := quiet.rt.(jobs := s.rt.jobs + [Null] + [Signal(i)]))
    case WorkerTakes => s.(rt := R.Apply(c.cap, s.rt, R.Take))
    case WorkerPops =>
      var i := s.rt.worker.machine;
      s.(rt := R.Apply(c.cap, s.rt, R.Pop), trace := s.trace + Tag(i, NewEffects(s.rt.machines[i])))
    case WorkerEnds => s.(rt := R.Apply(c.cap, s.rt, R.EndRun))
    case MachineGoes(i) => s.(rt := R.Apply(c.cap, s.rt, R.Expire(i)))
  }

  ghost function ApplyStop(c: Config, s: Sys, step: SysStep): Sys
    requires step.EndCommand? || step.Disconnect?
    requires Enabled(c, s, step)
  {
    var next := s.(mgr := M.Perform(s.mgr, ManagerOp(step)));
    match Stopped(s, step)
    case None => next
    case Some(t) =>
      var m := TaskRun.Push(s.rt.machines[t], E_STOP);
      SetTask(next, t, m).(posting := Some(t), stopAt := s.stopAt[t := |m.arrivals|])
  }

  ghost predicate AllEnabled(c: Config, s: Sys, steps: seq<SysStep>)
    decreases |steps|
  {
    steps == [] || (Enabled(c, s, steps[0]) && AllEnabled(c, Apply(c, s, steps[0]), steps[1..]))
  }

  ghost function Exec(c: Config, s: Sys, steps: seq<SysStep>): Sys
    requires AllEnabled(c, s, steps)
    decreases |steps|
  {
    if steps == [] then s else Exec(c, Apply(c, s, steps[0]), steps[1..])
  }

  ghost predicate Reachable(c: Config, s: Sys) {
    exists steps :: AllEnabled(c, Init(), steps) && s == Exec(c, Init(), steps)
  }

  // ------------------------------------------------------------------------------------------
  // Every action of the system is an action of the runtime, on runtime-level data.
  // ------------------------------------------------------------------------------------------

  /** The runtime actions behind a system step. */
  ghost function Lower(c: Config, s: Sys, step: SysStep): seq<R.Step<TaskData>>
    requires Enabled(c, s, step)
  {
    match step
    case BeginCommand(_, _, _, iv, mx) =>
      if M.Perform(s.mgr, ManagerOp(step)) == s.mgr then []
      else [R.Create(TaskTables(), S_INIT, NewTask(c.table, iv, mx)), R.PushEvent(|s.rt.machines|, E_START)]
    case EndCommand(_) => (match Stopped(s, step) case None => [] case Some(t) => [R.PushEvent(t, E_STOP)])
    case Disconnect(_) => (match Stopped(s, step) case None => [] case Some(t) => [R.PushEvent(t, E_STOP)])
    case ManagerPosts => [R.PostRun(s.posting.value)]
    case OtherPosts(i) => [R.PostRun(i)]
    case World(i, ts) =>
      var m := s.rt.machines[i];
      (match ts
       case Deliver(kind) => [R.Touch(i, Delivered(m.user, kind)), R.PushEvent(i, EventOf(kind))]
       case Light => [R.PushEvent(i, E_AMBIENT)]
       case Change(_) => [R.Touch(i, TaskApply(m, ts).user)]
       case Expires(_) => [R.Touch(i, TaskApply(m, ts).user)]
       case _ => [])
    case DestructBegins(i) =>
      [R.Touch(i, Shut(s.rt.machines[i].user)), R.Enqueue(Null), R.Enqueue(Signal(i))]
    case WorkerTakes => [R.Take]
    case WorkerPops => [R.Pop]
    case WorkerEnds => [R.EndRun]
    case MachineGoes(i) => [R.Expire(i)]
  }

  lemma ExecTwo(cap: nat, rt: R.Runtime<TaskData>, a: R.Step<TaskData>, b: R.Step<TaskData>)
    requires R.Enabled(cap, rt, a) && R.Enabled(cap, R.Apply(cap, rt, a), b)
    ensures R.AllEnabled(cap, rt, [a, b])
    ensures R.Exec(cap, rt, [a, b]) == R.Apply(cap, R.Apply(cap, rt, a), b)
  {
    assert [a, b][1..] == [b] && [b][1..] == [];
    assert R.AllEnabled(cap, R.Apply(cap, rt, a), [b]);
    assert R.Exec(cap, R.Apply(cap, rt, a), [b]) == R.Apply(cap, R.Apply(cap, rt, a), b);
  }

  lemma ExecOne(cap: nat, rt: R.Runtime<TaskData>, a: R.Step<TaskData>)
    requires R.Enabled(cap, rt, a)
    ensures R.AllEnabled(cap, rt, [a]) && R.Exec(cap, rt, [a]) == R.Apply(cap, rt, a)
  {
    assert [a][1..] == [];
  }

  lemma ExecThree(cap: nat, rt: R.Runtime<TaskData>, a: R.Step<TaskData>, b: R.Step<TaskData>, d: R.Step<TaskData>)
    requires R.Enabled(cap, rt, a) && R.Enabled(cap, R.Apply(cap, rt, a), b)
    requires R.Enabled(cap, R.Apply(cap, R.Apply(cap, rt, a), b), d)
    ensures R.AllEnabled(cap, rt, [a, b, d])
    ensures R.Exec(cap, rt, [a, b, d]) == R.Apply(cap, R.Apply(cap, R.Apply(cap, rt, a), b), d)
  {
    ExecTwo(cap, R.Apply(cap, rt, a), b, d);
    assert [a, b, d][1..] == [b, d];
  }

  lemma SimulatesBegin(c: Config, s: Sys, step: SysStep)
    requires Enabled(c, s, step) && step.BeginCommand?
    ensures R.AllEnabled(c.cap, s.rt, Lower(c, s, step))
    ensures R.Exec(c.cap, s.rt, Lower(c, s, step)) == Apply(c, s, step).rt
  {
    hide TaskTables, R.Handled, R.PostAll, M.Perform;
    OuterOnly();
    var rt := s.rt;
    if M.Perform(s.mgr, ManagerOp(step)) != s.mgr {
      var d := NewTask(c.table, step.intervalParam, step.maxParam);
      hide NewTask;
      var n := |rt.machines|;
      var made := R.Apply(c.cap, rt, R.Create(TaskTables(), S_INIT, d));
      ExecTwo(c.cap, rt, R.Create(TaskTables(), S_INIT, d), R.PushEvent(n, E_START));
      assert [] + [E_START] == [E_START];
      assert made.machines[n := Started(d)] == rt.machines + [Started(d)];
    }
  }

  lemma SimulatesWorld(c: Config, s: Sys, step: SysStep)
    requires Enabled(c, s, step) && step.World?
    ensures R.AllEnabled(c.cap, s.rt, Lower(c, s, step))
    ensures R.Exec(c.cap, s.rt, Lower(c, s, step)) == Apply(c, s, step).rt
  {
    hide TaskTables, R.Handled, R.PostAll, M.Perform;
    var rt, i, ts := s.rt, step.i, step.step;
    var m := rt.machines[i];
    match ts
    case Deliver(kind) => ExecTwo(c.cap, rt, R.Touch(i, Delivered(m.user, kind)), R.PushEvent(i, EventOf(kind)));
    case Light => ExecOne(c.cap, rt, R.PushEvent(i, E_AMBIENT));
    case Change(_) => ExecOne(c.cap, rt, R.Touch(i, TaskApply(m, ts).user));
    case Expires(_) => ExecOne(c.cap, rt, R.Touch(i, TaskApply(m, ts).user));
    case _ =>
  }

  /** Simulation: the system's runtime moves exactly as the lowered actions say. */
  lemma Simulates(c: Config, s: Sys, step: SysStep)
    requires Enabled(c, s, step)
    ensures R.AllEnabled(c.cap, s.rt, Lower(c, s, step))
    ensures R.Exec(c.cap, s.rt, Lower(c, s, step)) == Apply(c, s, step).rt
  {
    hide TaskTables, R.Handled, R.PostAll, M.Perform, TaskApply, Started, NewTask;
    var rt := s.rt;
    match step
    case BeginCommand(_, _, _, _, _) => SimulatesBegin(c, s, step);
    case World(_, _) => SimulatesWorld(c, s, step);
    case EndCommand(_) =>
      if Stopped(s, step).Some? {
        ExecOne(c.cap, rt, R.PushEvent(Stopped(s, step).value, E_STOP));
      }
    case Disconnect(_) =>
      if Stopped(s, step).Some? {
        ExecOne(c.cap, rt, R.PushEvent(Stopped(s, step).value, E_STOP));
      }
    case DestructBegins(i) =>
      ExecThree(c.cap, rt, R.Touch(i, Shut(rt.machines[i].user)), R.Enqueue(Null), R.Enqueue(Signal(i)));
    case ManagerPosts => ExecOne(c.cap, rt, R.PostRun(s.posting.value));
    case OtherPosts(i) => ExecOne(c.cap, rt, R.PostRun(i));
    case WorkerTakes => ExecOne(c.cap, rt, R.Take);
    case WorkerPops => ExecOne(c.cap, rt, R.Pop);
    case WorkerEnds => ExecOne(c.cap, rt, R.EndRun);
    case MachineGoes(i) => ExecOne(c.cap, rt, R.Expire(i));
  }
}
